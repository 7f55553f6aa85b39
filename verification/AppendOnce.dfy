/** O_APPEND handles, whatever is dropped under whichever flush: what reaches the file, and exactly
    when a chunk is sent twice. */
module AppendOnce {
  import opened FileModel
  import opened Coalescing
  import opened Buffers
  import opened HandleProtocol

  // ----- what landed -----

  /** Everything that landed, in the order it landed. */
  function Joined(ls: seq<Landing>): seq<Byte> {
    if ls == [] then [] else Joined(ls[..|ls| - 1]) + ls[|ls| - 1].data
  }

  /** What landed of batch `b`. */
  function Share(ls: seq<Landing>, b: nat): seq<Byte> {
    if ls == [] then []
    else
      var l := ls[|ls| - 1];
      Share(ls[..|ls| - 1], b) + if l.batch == b then l.data else []
  }

  lemma LandingPush(ls: seq<Landing>, l: Landing, b: nat)
    ensures Joined(ls + [l]) == Joined(ls) + l.data
    ensures Share(ls + [l], b) == Share(ls, b) + if l.batch == b then l.data else []
  {
    assert (ls + [l])[..|ls|] == ls;
  }

  lemma {:induction false} NoShareYet(ls: seq<Landing>, b: nat)
    requires forall i :: 0 <= i < |ls| ==> ls[i].batch != b
    ensures Share(ls, b) == []
  {
    if ls != [] {
      NoShareYet(ls[..|ls| - 1], b);
    }
  }

  /** `n` writes have been accepted and `gone` of them removed. */
  predicate BatchOk(n: nat, gone: nat, b: Batch) {
    0 < b.count && b.from <= gone && b.from + b.count <= n && b.landed <= b.whole
  }

  /** Each batch landed a prefix of its own bytes, which is its share of everything that landed. */
  ghost predicate LogOk(l: Ledger) {
    && (forall b :: 0 <= b < |l.batches| ==> BatchOk(|l.accepted|, |l.fates|, l.batches[b]))
    && (forall b :: 0 <= b < |l.batches| ==> l.batches[b].landed == Share(l.landings, b))
    && (forall b, c :: 0 <= b < c < |l.batches| ==> l.batches[b].from <= l.batches[c].from)
    && (forall i :: 0 <= i < |l.landings| ==> l.landings[i].batch < |l.batches|)
  }

  predicate LandedWhole(b: Batch, i: nat) {
    b.from <= i < b.from + b.count && b.landed == b.whole
  }

  ghost predicate InWholeBatch(bs: seq<Batch>, i: nat) {
    exists k :: 0 <= k < |bs| && LandedWhole(bs[k], i)
  }

  ghost predicate AckedAreWhole(l: Ledger) {
    forall i :: 0 <= i < |l.fates| && l.fates[i] == Acked ==> InWholeBatch(l.batches, i)
  }

  ghost predicate InTransit(l: Ledger, fl: Flight)
    requires Bounded(l, fl)
  {
    l.batches[fl.batch].whole == DataOf(fl.runs) && l.batches[fl.batch].landed == DataOf(fl.runs[..fl.sent])
  }

  predicate Flies(a: Actor, b: nat) {
    a.Sending? && a.flight.batch == b
  }

  /** The chunks of a batch no longer in flight are no longer queued. */
  ghost predicate Closed(h: Handle) {
    forall b :: 0 <= b < |h.led.batches| ==>
                  h.led.batches[b].from + h.led.batches[b].count <= |h.led.fates| || Flies(h.fuse, b) || Flies(h.bg, b)
  }

  ghost predicate Flights(h: Handle)
    requires InBounds(h)
  {
    && (h.fuse.Sending? ==> InTransit(h.led, h.fuse.flight))
    && (h.bg.Sending? ==> InTransit(h.led, h.bg.flight))
  }

  ghost predicate AppendsLogged(h: Handle)
    requires InBounds(h)
  {
    h.append ==>
      && LogOk(h.led) && AckedAreWhole(h.led)
      && Flights(h) && Closed(h)
      && (h.alone ==> h.file == h.led.base + Joined(h.led.landings))
  }

  // ----- the ledger -----

  lemma WholeGrows(l: Ledger, b: Batch)
    requires AckedAreWhole(l)
    ensures AckedAreWhole(l.(batches := l.batches + [b]))
  {
    forall i | 0 <= i < |l.fates| && l.fates[i] == Acked
      ensures InWholeBatch(l.batches + [b], i)
    {
      var k :| 0 <= k < |l.batches| && LandedWhole(l.batches[k], i);
      assert (l.batches + [b])[k] == l.batches[k];
    }
  }

  lemma LogBegins(l: Ledger, b: Batch)
    requires LogOk(l) && BatchOk(|l.accepted|, |l.fates|, b) && b.from == |l.fates| && b.landed == []
    ensures LogOk(l.(batches := l.batches + [b]))
  {
    NoShareYet(l.landings, |l.batches|);
    hide Share;
    forall c | 0 <= c < |l.batches|
      ensures l.batches[c].from <= b.from
    {
      assert BatchOk(|l.accepted|, |l.fates|, l.batches[c]);
    }
  }

  lemma LogLands(l: Ledger, fl: Flight, data: seq<Byte>)
    requires LogOk(l) && fl.batch < |l.batches|
    requires l.batches[fl.batch].landed + data <= l.batches[fl.batch].whole
    ensures LogOk(LedgerLand(l, fl, data))
  {
    var l' := LedgerLand(l, fl, data);
    forall b | 0 <= b < |l.batches|
      ensures BatchOk(|l.accepted|, |l.fates|, l'.batches[b]) && l'.batches[b].landed == Share(l'.landings, b)
    {
      assert BatchOk(|l.accepted|, |l.fates|, l.batches[b]);
      LandingPush(l.landings, Landing(fl.batch, data), b);
    }
  }

  /** A batch that landed whole has no more to land. */
  lemma WholeStays(l: Ledger, fl: Flight, data: seq<Byte>)
    requires AckedAreWhole(l) && fl.batch < |l.batches|
    requires l.batches[fl.batch].landed + data <= l.batches[fl.batch].whole
    ensures AckedAreWhole(LedgerLand(l, fl, data))
  {
    var l' := LedgerLand(l, fl, data);
    forall i | 0 <= i < |l'.fates| && l'.fates[i] == Acked
      ensures InWholeBatch(l'.batches, i)
    {
      var k :| 0 <= k < |l.batches| && LandedWhole(l.batches[k], i);
      assert LandedWhole(l'.batches[k], i);
    }
  }

  lemma LogGrows(l: Ledger, l': Ledger)
    requires LogOk(l) && l'.batches == l.batches && l'.landings == l.landings
    requires |l.fates| <= |l'.fates| && |l.accepted| <= |l'.accepted|
    ensures LogOk(l')
  {
    forall b | 0 <= b < |l.batches|
      ensures BatchOk(|l'.accepted|, |l'.fates|, l'.batches[b])
    {
      assert BatchOk(|l.accepted|, |l.fates|, l.batches[b]);
    }
  }

  lemma AckedAfterDrop(l: Ledger, n: nat)
    requires AckedAreWhole(l)
    ensures AckedAreWhole(LedgerDrop(l, n))
  {
  }

  lemma SnapshotPrefix(runs: seq<Run>, n: nat, k: nat)
    requires n < |runs| && k <= |runs[n].data|
    ensures DataOf(runs[..n]) + runs[n].data[..k] <= DataOf(runs)
    ensures DataOf(runs[..n + 1]) == DataOf(runs[..n]) + runs[n].data
  {
    assert runs[..n + 1][..n] == runs[..n];
    assert runs == runs[..n + 1] + runs[n + 1..];
    DataOfConcat(runs[..n + 1], runs[n + 1..]);
  }

  /** Part of the flight's next run lands. */
  lemma PartLands(l: Ledger, fl: Flight, k: nat)
    requires LogOk(l) && AckedAreWhole(l) && Bounded(l, fl) && InTransit(l, fl)
    requires fl.sent < |fl.runs| && k <= |fl.runs[fl.sent].data|
    ensures var l' := LedgerLand(l, fl, fl.runs[fl.sent].data[..k]);
            && LogOk(l') && AckedAreWhole(l')
            && Joined(l'.landings) == Joined(l.landings) + fl.runs[fl.sent].data[..k]
  {
    var data := fl.runs[fl.sent].data[..k];
    SnapshotPrefix(fl.runs, fl.sent, k);
    LandingPush(l.landings, Landing(fl.batch, data), 0);
    hide DataOf, Joined, LogOk, AckedAreWhole;
    LogLands(l, fl, data);
    WholeStays(l, fl, data);
  }

  // ----- every step -----

  lemma LoggedAccept(h: Handle, c: Chunk)
    requires Conserved(h) && InBounds(h) && AppendsLogged(h) && h.fuse.Resting? && InBounds(AcceptStep(h, c))
    ensures AppendsLogged(AcceptStep(h, c))
  {
    if h.append {
      LogGrows(h.led, AcceptStep(h, c).led);
      hide LogOk, DataOf, Joined;
    }
  }

  lemma FlightsBegin(h: Handle, who: Who)
    requires InBounds(h) && Flights(h) && Enabled(h, Begin(who)) && InBounds(BeginStep(h, who))
    ensures Flights(BeginStep(h, who))
  {
    var runs := FlightOf(h.led, h.Queue()).runs;
    assert runs[..0] == [] && DataOf([]) == [];
    hide DataOf, Snapshot, Payload;
  }

  lemma ClosedBegin(h: Handle, who: Who)
    requires Closed(h) && Enabled(h, Begin(who))
    ensures Closed(BeginStep(h, who))
  {
    hide DataOf, Snapshot, Payload;
  }

  lemma LoggedBegin(h: Handle, who: Who)
    requires Conserved(h) && InBounds(h) && AppendsLogged(h) && Enabled(h, Begin(who)) && InBounds(BeginStep(h, who))
    ensures AppendsLogged(BeginStep(h, who))
  {
    if h.append {
      FlightsBegin(h, who);
      ClosedBegin(h, who);
      hide Flights, Closed, InBounds, LogOk, AckedAreWhole, DataOf, Joined, Snapshot, Payload;
      var b := Batch(|h.led.fates|, |h.Queue()|, DataOf(Snapshot(Payload(h.Queue()))), []);
      LogBegins(h.led, b);
      WholeGrows(h.led, b);
    }
  }

  lemma TransitAdvance(l: Ledger, fl: Flight)
    requires Bounded(l, fl) && InTransit(l, fl) && fl.sent < |fl.runs|
    requires Bounded(LedgerLand(l, fl, fl.runs[fl.sent].data), fl.(sent := fl.sent + 1))
    ensures InTransit(LedgerLand(l, fl, fl.runs[fl.sent].data), fl.(sent := fl.sent + 1))
  {
    SnapshotPrefix(fl.runs, fl.sent, 0);
  }

  lemma TransitElsewhere(l: Ledger, fl: Flight, g: Flight, data: seq<Byte>)
    requires Bounded(l, g) && InTransit(l, g) && g.batch != fl.batch && Bounded(LedgerLand(l, fl, data), g)
    ensures InTransit(LedgerLand(l, fl, data), g)
  {
    hide DataOf;
  }

  lemma FlightsDeliver(h: Handle, who: Who)
    requires InBounds(h) && Flights(h) && Enabled(h, Deliver(who)) && InBounds(DeliverStep(h, who))
    ensures Flights(DeliverStep(h, who))
  {
    var fl := h.Actor(who).flight;
    TransitAdvance(h.led, fl);
    if h.Other(who).Sending? {
      TransitElsewhere(h.led, fl, h.Other(who).flight, fl.runs[fl.sent].data);
    }
    hide InTransit, Store, LedgerLand;
  }

  lemma ClosedDeliver(h: Handle, who: Who)
    requires Closed(h) && Enabled(h, Deliver(who))
    ensures Closed(DeliverStep(h, who))
  {
    hide Store;
  }

  lemma LoggedDeliver(h: Handle, who: Who)
    requires InBounds(h) && AppendsLogged(h) && Enabled(h, Deliver(who)) && InBounds(DeliverStep(h, who))
    ensures AppendsLogged(DeliverStep(h, who))
  {
    if h.append {
      var fl := h.Actor(who).flight;
      var data := fl.runs[fl.sent].data;
      assert data[..|data|] == data;
      PartLands(h.led, fl, |data|);
      FlightsDeliver(h, who);
      ClosedDeliver(h, who);
      hide Flights, Closed, InBounds, LogOk, AckedAreWhole, Joined, LedgerLand;
    }
  }

  lemma FlightsFail(h: Handle, who: Who, k: nat)
    requires h.append && InBounds(h) && Flights(h) && Enabled(h, Fail(who, k)) && InBounds(FailStep(h, who, k))
    ensures Flights(FailStep(h, who, k))
  {
    var fl := h.Actor(who).flight;
    if h.Other(who).Sending? {
      var g, data := h.Other(who).flight, fl.runs[fl.sent].data[..k];
      TransitElsewhere(h.led, fl, g, data);
    }
    hide DataOf, Store;
  }

  /** Dropping the queue leaves no place behind any batch. */
  lemma ClosedFail(h: Handle, who: Who, k: nat)
    requires h.append && Conserved(h) && LogOk(h.led) && Enabled(h, Fail(who, k))
    ensures Closed(FailStep(h, who, k))
  {
    var h' := FailStep(h, who, k);
    hide Store, Share;
    forall b | 0 <= b < |h'.led.batches|
      ensures h'.led.batches[b].from + h'.led.batches[b].count <= |h'.led.fates|
    {
      assert BatchOk(|h.led.accepted|, |h.led.fates|, h.led.batches[b]);
    }
  }

  lemma LoggedFail(h: Handle, who: Who, k: nat)
    requires Conserved(h) && InBounds(h) && AppendsLogged(h) && Enabled(h, Fail(who, k))
    requires InBounds(FailStep(h, who, k))
    ensures AppendsLogged(FailStep(h, who, k))
  {
    if h.append {
      var h', fl := FailStep(h, who, k), h.Actor(who).flight;
      var mid := Land(h, fl, Cut(fl.runs[fl.sent], k));
      PartLands(h.led, fl, k);
      FlightsFail(h, who, k);
      ClosedFail(h, who, k);
      hide Flights, Closed, InBounds, LogOk, AckedAreWhole, Joined, LedgerLand;
      AckedAfterDrop(mid.led, |mid.Queue()|);
      LogGrows(mid.led, h'.led);
    }
  }

  lemma AckedAfterFinish(l: Ledger, fl: Flight, n: nat)
    requires AckedAreWhole(l) && Bounded(l, fl) && InTransit(l, fl) && fl.sent == |fl.runs|
    ensures AckedAreWhole(LedgerAck(l, fl, n))
  {
    var l' := LedgerAck(l, fl, n);
    assert fl.runs[..fl.sent] == fl.runs;
    forall i | 0 <= i < |l'.fates| && l'.fates[i] == Acked
      ensures InWholeBatch(l.batches, i)
    {
      if i < |l.fates| {
        assert l.fates[i] == Acked;
      } else {
        assert LandedWhole(l.batches[fl.batch], i);
      }
    }
  }

  lemma LoggedFinish(h: Handle, who: Who)
    requires Conserved(h) && InBounds(h) && AppendsLogged(h) && Enabled(h, Finish(who)) && InBounds(FinishStep(h, who))
    ensures AppendsLogged(FinishStep(h, who))
  {
    if h.append {
      var h', fl := FinishStep(h, who), h.Actor(who).flight;
      AckedAfterFinish(h.led, fl, AckRemoves(fl, h.Queue()));
      LogGrows(h.led, h'.led);
      hide LogOk, AckedAreWhole, DataOf, Joined;
    }
  }

  lemma LoggedDrops(h: Handle, e: Event)
    requires Conserved(h) && InBounds(h) && AppendsLogged(h) && Enabled(h, e) && (e.ReopenDrop? || e.AgeDrop?)
    requires InBounds(Next(h, e))
    ensures AppendsLogged(Next(h, e))
  {
    if h.append {
      AckedAfterDrop(h.led, |h.Queue()|);
      LogGrows(h.led, Next(h, e).led);
      hide LogOk, DataOf, Joined, InWholeBatch;
    }
  }

  lemma LoggedFlags(h: Handle, e: Event)
    requires InBounds(h) && AppendsLogged(h) && Enabled(h, e) && InBounds(Next(h, e))
    requires e.Refuse? || e.Mark? || e.Drained? || e.DrainFailed? || e.Reply? || e.Intrude?
    ensures AppendsLogged(Next(h, e))
  {
    hide Joined, Share, DataOf, InWholeBatch;
  }

  /** Every step of both actors keeps the file of an O_APPEND handle the original followed by what
      landed of its batches. */
  lemma {:induction false} AppendsLoggedStep(h: Handle, e: Event)
    requires Conserved(h) && InBounds(h) && AppendsLogged(h) && Enabled(h, e) && InBounds(Next(h, e))
    ensures AppendsLogged(Next(h, e))
  {
    hide Conserved, InBounds, AppendsLogged, AcceptStep, BeginStep, DeliverStep, FailStep, FinishStep, ReopenDropStep,
      AgeDropStep, ReplyStep;
    match e {
      case Accept(c) => LoggedAccept(h, c);
      case Begin(who) => LoggedBegin(h, who);
      case Deliver(who) => LoggedDeliver(h, who);
      case Fail(who, k) => LoggedFail(h, who, k);
      case Finish(who) => LoggedFinish(h, who);
      case ReopenDrop => LoggedDrops(h, e);
      case AgeDrop => LoggedDrops(h, e);
      case _ => LoggedFlags(h, e);
    }
  }

  // ----- sent twice -----

  predicate Sends(b: Batch, i: nat) {
    b.from <= i < b.from + b.count
  }

  /** No chunk is in two batches. */
  ghost predicate Disjoint(bs: seq<Batch>) {
    forall b, c, i :: 0 <= b < c < |bs| && Sends(bs[b], i) ==> !Sends(bs[c], i)
  }

  /** Beginning a flush now would send again what the other actor is still sending. */
  predicate Resends(h: Handle, who: Who) {
    h.Other(who).Sending? && h.Other(who).flight.from + h.Other(who).flight.count > |h.led.fates|
  }

  lemma DisjointPush(bs: seq<Batch>, n: Batch)
    requires n.count > 0 && forall b :: 0 <= b < |bs| ==> bs[b].from <= n.from
    ensures Disjoint(bs + [n]) <==>
            Disjoint(bs) && forall b :: 0 <= b < |bs| ==> bs[b].from + bs[b].count <= n.from
  {
    var more := bs + [n];
    if Disjoint(more) {
      forall b | 0 <= b < |bs|
        ensures bs[b].from + bs[b].count <= n.from
      {
        assert Sends(n, n.from) && more[b] == bs[b] && more[|bs|] == n;
        assert Sends(bs[b], n.from) <==> n.from < bs[b].from + bs[b].count;
      }
      assert forall b, c, i :: 0 <= b < c < |bs| && Sends(bs[b], i) ==> !Sends(bs[c], i) by {
        assert forall b :: 0 <= b < |bs| ==> more[b] == bs[b];
      }
    }
  }

  lemma DisjointSame(bs: seq<Batch>, bs': seq<Batch>)
    requires |bs'| == |bs|
    requires forall b :: 0 <= b < |bs| ==> bs'[b].from == bs[b].from && bs'[b].count == bs[b].count
    ensures Disjoint(bs') <==> Disjoint(bs)
  {
    assert forall b, i :: 0 <= b < |bs| ==> (Sends(bs[b], i) <==> Sends(bs'[b], i));
  }

  /** Only the other actor's flight can cover what is queued. */
  lemma ResendsIff(h: Handle, who: Who)
    requires InBounds(h) && Closed(h) && !h.Actor(who).Sending?
    ensures Resends(h, who) <==>
            exists b :: 0 <= b < |h.led.batches| && h.led.batches[b].from + h.led.batches[b].count > |h.led.fates|
  {
    if Resends(h, who) {
      var b := h.Other(who).flight.batch;
      assert h.led.batches[b].from + h.led.batches[b].count > |h.led.fates|;
    }
  }

  lemma BeginDisjoint(h: Handle, who: Who)
    requires h.append && Conserved(h) && InBounds(h) && AppendsLogged(h) && Enabled(h, Begin(who))
    ensures Disjoint(BeginStep(h, who).led.batches) <==> Disjoint(h.led.batches) && !Resends(h, who)
  {
    var bs, n := h.led.batches, Batch(|h.led.fates|, |h.Queue()|, DataOf(Snapshot(Payload(h.Queue()))), []);
    forall b | 0 <= b < |bs|
      ensures bs[b].from <= n.from
    {
      assert BatchOk(|h.led.accepted|, |h.led.fates|, bs[b]);
    }
    ResendsIff(h, who);
    hide Disjoint, LogOk, AckedAreWhole, DataOf, Snapshot, Payload, Joined, Closed, InBounds, Flights, Resends;
    DisjointPush(bs, n);
  }

  lemma RemovalsKeepBatches(h: Handle, e: Event)
    requires Enabled(h, e) && (e.Finish? || e.ReopenDrop? || e.AgeDrop?)
    ensures Next(h, e).led.batches == h.led.batches && Next(h, e).led.landings == h.led.landings
  {
    hide AckedEntry, LastWithData, Repeat, AckFates, SentInOrder;
  }

  /** Steps that neither begin a flush nor land anything. */
  lemma SameBatches(h: Handle, e: Event)
    requires Enabled(h, e) && !e.Begin? && !e.Deliver? && !e.Fail?
    ensures Next(h, e).led.batches == h.led.batches && Next(h, e).led.landings == h.led.landings
  {
    hide Enqueued, FlushReply, FinishStep, ReopenDropStep, AgeDropStep, BeginStep, DeliverStep, FailStep;
    if e.Finish? || e.ReopenDrop? || e.AgeDrop? {
      RemovalsKeepBatches(h, e);
    }
  }

  lemma LandKeepsStretches(l: Ledger, fl: Flight, data: seq<Byte>)
    ensures Disjoint(LedgerLand(l, fl, data).batches) <==> Disjoint(l.batches)
  {
    hide Disjoint;
    DisjointSame(l.batches, LedgerLand(l, fl, data).batches);
  }

  /** Exactly one step ever makes two batches of an O_APPEND handle overlap: beginning a flush while
      the other actor's still covers queued chunks. */
  lemma {:induction false} DisjointStep(h: Handle, e: Event)
    requires h.append && Conserved(h) && InBounds(h) && AppendsLogged(h) && Enabled(h, e)
    ensures Disjoint(Next(h, e).led.batches) <==>
            Disjoint(h.led.batches) && !(e.Begin? && Resends(h, e.who))
  {
    hide Disjoint, AppendsLogged, Conserved, InBounds, Resends, LedgerLand, Store, BeginStep;
    match e {
      case Begin(who) => BeginDisjoint(h, who);
      case Deliver(who) =>
        var fl := h.Actor(who).flight;
        LandKeepsStretches(h.led, fl, fl.runs[fl.sent].data);
      case Fail(who, k) =>
        var fl := h.Actor(who).flight;
        LandKeepsStretches(h.led, fl, fl.runs[fl.sent].data[..k]);
      case _ => SameBatches(h, e);
    }
  }

  // ----- in the order the flushes began -----

  function Landed(bs: seq<Batch>): seq<Byte> {
    if bs == [] then [] else Landed(bs[..|bs| - 1]) + bs[|bs| - 1].landed
  }

  /** With no queue dropped under a flush, batches land one after the other. */
  ghost predicate InBatchOrder(h: Handle) {
    h.append && h.led.undisturbed ==> Joined(h.led.landings) == Landed(h.led.batches)
  }

  lemma LandedGrows(bs: seq<Batch>, data: seq<Byte>)
    requires bs != []
    ensures var n := |bs| - 1;
            Landed(bs[n := bs[n].(landed := bs[n].landed + data)]) == Landed(bs) + data
  {
    var n := |bs| - 1;
    var bs' := bs[n := bs[n].(landed := bs[n].landed + data)];
    assert bs'[..n] == bs[..n];
  }

  lemma OrderLand(l: Ledger, fl: Flight, data: seq<Byte>)
    requires Joined(l.landings) == Landed(l.batches) && fl.batch == |l.batches| - 1
    ensures var l' := LedgerLand(l, fl, data); Joined(l'.landings) == Landed(l'.batches)
  {
    LandingPush(l.landings, Landing(fl.batch, data), 0);
    LandedGrows(l.batches, data);
  }

  lemma OrderBegin(l: Ledger, q: seq<Chunk>)
    ensures Landed(LedgerBegin(l, q).batches) == Landed(l.batches)
  {
    assert LedgerBegin(l, q).batches[..|l.batches|] == l.batches;
  }

  lemma OrderDeliver(h: Handle, who: Who)
    requires h.append && h.led.undisturbed && Roles(h) && InBatchOrder(h) && Enabled(h, Deliver(who))
    ensures InBatchOrder(DeliverStep(h, who))
  {
    hide Joined, Landed, Store, LedgerLand, Conserved;
    var fl := h.Actor(who).flight;
    OrderLand(h.led, fl, fl.runs[fl.sent].data);
  }

  lemma OrderFail(h: Handle, who: Who, k: nat)
    requires h.append && h.led.undisturbed && Roles(h) && InBatchOrder(h) && Enabled(h, Fail(who, k))
    ensures InBatchOrder(FailStep(h, who, k))
  {
    hide Joined, Landed, Store, LedgerLand, LostBy, Repeat;
    var fl := h.Actor(who).flight;
    OrderLand(h.led, fl, fl.runs[fl.sent].data[..k]);
  }

  lemma OrderBegins(h: Handle, who: Who)
    requires h.append && h.led.undisturbed && InBatchOrder(h) && Enabled(h, Begin(who))
    ensures InBatchOrder(BeginStep(h, who))
  {
    hide Joined, Landed, Snapshot, Payload, DataOf;
    OrderBegin(h.led, h.Queue());
  }

  lemma NeverQuietAgain(h: Handle, e: Event)
    requires Enabled(h, e) && !(h.append && h.led.undisturbed)
    ensures InBatchOrder(Next(h, e))
  {
    hide Joined, Landed, Store, Snapshot, Payload, DataOf, Repeat, AckFates, LastWithData, SentInOrder, FlushReply;
  }

  lemma {:induction false} InBatchOrderStep(h: Handle, e: Event)
    requires Roles(h) && InBatchOrder(h) && Enabled(h, e)
    ensures InBatchOrder(Next(h, e))
  {
    hide Roles, Joined, Landed, BeginStep, DeliverStep, FailStep, FinishStep, ReopenDropStep, AgeDropStep, AcceptStep,
      ReplyStep;
    if h.append && h.led.undisturbed {
      match e {
        case Begin(who) => OrderBegins(h, who);
        case Deliver(who) => OrderDeliver(h, who);
        case Fail(who, k) => OrderFail(h, who, k);
        case _ => SameBatches(h, e);
      }
    } else {
      NeverQuietAgain(h, e);
    }
  }

  // ----- whose bytes they are -----

  function SortedBytes(accepted: seq<Chunk>, from: nat, count: nat): seq<Byte>
    requires from + count <= |accepted|
  {
    DataOf(SortByOffset(Payload(accepted[from..from + count])))
  }

  ghost predicate BatchIs(accepted: seq<Chunk>, b: Batch) {
    b.from + b.count <= |accepted| && b.whole == SortedBytes(accepted, b.from, b.count)
  }

  /** Each batch's bytes are those of the chunks it covers, stably sorted by offset. */
  ghost predicate BatchBytes(l: Ledger) {
    forall k :: 0 <= k < |l.batches| ==> BatchIs(l.accepted, l.batches[k])
  }

  lemma BatchIsAccept(accepted: seq<Chunk>, b: Batch, c: Chunk)
    requires BatchIs(accepted, b)
    ensures BatchIs(accepted + [c], b)
  {
    hide DataOf, SortByOffset, Payload;
    assert (accepted + [c])[b.from..b.from + b.count] == accepted[b.from..b.from + b.count];
  }

  lemma BatchIsSnapshot(accepted: seq<Chunk>, n: nat, q: seq<Chunk>)
    requires n <= |accepted| && q == accepted[n..]
    ensures BatchIs(accepted, Batch(n, |q|, DataOf(Snapshot(Payload(q))), []))
  {
    hide DataOf, SortByOffset, Payload, Snapshot;
    assert accepted[n..n + |q|] == q;
    SnapshotData(Payload(q));
  }

  lemma BatchBytesLand(l: Ledger, fl: Flight, data: seq<Byte>)
    requires BatchBytes(l)
    ensures BatchBytes(LedgerLand(l, fl, data))
  {
    var l' := LedgerLand(l, fl, data);
    forall k | 0 <= k < |l'.batches|
      ensures BatchIs(l'.accepted, l'.batches[k])
    {
      assert BatchIs(l.accepted, l.batches[k]);
    }
  }

  lemma BatchBytesAccept(l: Ledger, c: Chunk)
    requires BatchBytes(l)
    ensures BatchBytes(l.(accepted := l.accepted + [c]))
  {
    forall k | 0 <= k < |l.batches| {
      BatchIsAccept(l.accepted, l.batches[k], c);
    }
  }

  lemma BatchBytesBegin(l: Ledger, q: seq<Chunk>)
    requires BatchBytes(l) && |l.fates| <= |l.accepted| && q == l.accepted[|l.fates|..]
    ensures BatchBytes(LedgerBegin(l, q))
  {
    BatchIsSnapshot(l.accepted, |l.fates|, q);
  }

  lemma BatchBytesSame(l: Ledger, l': Ledger)
    requires BatchBytes(l) && l'.batches == l.batches && l'.accepted == l.accepted
    ensures BatchBytes(l')
  {
  }

  lemma {:induction false} BatchBytesStep(h: Handle, e: Event)
    requires Conserved(h) && BatchBytes(h.led) && Enabled(h, e)
    ensures BatchBytes(Next(h, e).led)
  {
    hide BatchBytes, DataOf, Snapshot, OrderSafeUnder;
    match e {
      case Accept(c) => BatchBytesAccept(h.led, c);
      case Begin(_) => BatchBytesBegin(h.led, h.Queue());
      case Deliver(who) =>
        var fl := h.Actor(who).flight;
        BatchBytesLand(h.led, fl, fl.runs[fl.sent].data);
      case Fail(who, k) =>
        var fl := h.Actor(who).flight;
        BatchBytesLand(h.led, fl, fl.runs[fl.sent].data[..k]);
        BatchBytesSame(LedgerLand(h.led, fl, fl.runs[fl.sent].data[..k]), Next(h, e).led);
      case _ =>
        BatchBytesSame(h.led, Next(h, e).led);
    }
  }
}
