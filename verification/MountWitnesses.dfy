/** Runs that show why the theorems carry the conditions they do: close() answered Ok although an
    accepted write is gone, twice; an append landing twice; a released handle's bytes landing in the
    file of the next; the sort by offset letting an older write win; and one that goes as promised, a
    failed send repeated. */
module MountWitnesses {
  import opened FileModel
  import opened Coalescing
  import opened Buffers
  import opened HandleProtocol
  import opened AppendOnce
  import opened HandleRuns
  import opened HandleIds
  import opened Mount
  import opened MountRuns
  import opened MountTheorems

  ghost predicate Reachable(w: World) {
    exists ws, ss :: IsMountRun(ws, ss) && w == ws[|ss|]
  }

  lemma ReachStart(w: World)
    requires Start(w)
    ensures Reachable(w)
  {
    assert IsMountRun([w], []);
  }

  lemma ReachStep(w: World, s: Step, w': World)
    requires Reachable(w) && Allowed(w, s) && w' == After(w, s)
    ensures Reachable(w')
  {
    hide Allowed, After, Start;
    var ws, ss :| IsMountRun(ws, ss) && w == ws[|ss|];
    var ws', ss' := ws + [w'], ss + [s];
    assert ws'[0] == ws[0];
    forall k | 0 <= k < |ss'|
      ensures Allowed(ws'[k], ss'[k]) && ws'[k + 1] == After(ws'[k], ss'[k])
    {
      if k < |ss| {
        assert ws'[k] == ws[k] && ws'[k + 1] == ws[k + 1] && ss'[k] == ss[k];
      }
    }
    assert IsMountRun(ws', ss');
  }

  const PATH: Path := "f"
  const FH: Fh := 1

  /** A mount with one file, one connection and nothing open. */
  function Mounted(): World {
    World(100, map[PATH := []], [Session(0, 0, map[])], map[], FH, map[], {}, Idle, Idle, map[], {})
  }

  /** One handle open on that file. */
  function WorldOf(file: Content, sessions: seq<Session<Entry>>, f: OpenFile, buf: Option<HandleBuf>,
                   sticky: bool, fuse: Phase, bg: Phase, l: Ledger): World {
    World(100, map[PATH := file], sessions, map[FH := f], FH + 1,
          if buf.None? then map[] else map[FH := buf.value],
          if sticky then {FH} else {}, fuse, bg, map[FH := l], {})
  }

  function First(append: bool): Target {
    Target(1, 0, Entry(PATH, append))
  }

  function OneSession(append: bool): seq<Session<Entry>> {
    [Session(0, 1, map[1 := Entry(PATH, append)])]
  }

  function ChunkOf(offset: nat, b: Byte): Chunk {
    Chunk(Run(offset, [b]), 0)
  }

  lemma NothingQueued()
    ensures TableBytes(map[]) == 0
  {
  }

  lemma OneQueued(fh: Fh, c: Chunk, sending: bool)
    ensures TableBytes(map[fh := HandleBuf([c], sending)]) == |c.run.data|
  {
    var q: Table := map[fh := HandleBuf([c], sending)];
    WithoutBytes(q, fh);
    assert q - {fh} == map[];
    NothingQueued();
    assert Payload([c]) == [c.run];
    assert Bytes([c.run]) == Bytes([]) + |c.run.data|;
  }

  function JustOpened(append: bool): World {
    WorldOf([], OneSession(append), OpenFile(First(append), 0), None, false, Idle, Idle, Opened([]))
  }

  function JustWritten(append: bool, b: Byte): World {
    WorldOf([], OneSession(append), OpenFile(First(append), 0), Some(HandleBuf([ChunkOf(0, b)], false)), false,
            Idle, Idle, Ledger([], [ChunkOf(0, b)], [], 0, true, true, [], []))
  }

  lemma OpenOne(append: bool)
    ensures Reachable(JustOpened(append))
  {
    var w0 := Mounted();
    ReachStart(w0);
    var w := After(w0, Open(PATH, append));
    assert w.sessions == OneSession(append);
    assert w.open == map[FH := OpenFile(First(append), 0)];
    assert w == JustOpened(append);
    ReachStep(w0, Open(PATH, append), w);
  }

  lemma WriteOne(append: bool, b: Byte)
    ensures Reachable(JustWritten(append, b))
  {
    hide Reachable;
    OpenOne(append);
    NothingQueued();
    var w1, w2, s := JustOpened(append), JustWritten(append, b), Write(FH, ChunkOf(0, b));
    assert Opened([]).accepted + [ChunkOf(0, b)] == [ChunkOf(0, b)];
    assert After(w1, s).bufs == w2.bufs;
    assert After(w1, s).ledgers == w2.ledgers;
    ReachStep(w1, s, w2);
  }

  // ----- a drop not yet marked -----

  /** The background task has dropped the write and not yet set the sticky error. */
  function Unmarked(b: Byte): World {
    WorldOf([], OneSession(false), OpenFile(First(false), 0), None, false, Idle, ToMark(FH, Some(0)),
            Ledger([], [ChunkOf(0, b)], [Dropped], 0, true, true, [], []))
  }

  lemma DropOne(b: Byte)
    ensures Reachable(Unmarked(b))
  {
    hide Reachable;
    WriteOne(false, b);
    var w2, w3 := JustWritten(false, b), Unmarked(b);
    assert Repeat(Dropped, 1) == [Dropped];
    assert w3.ledgers == w2.ledgers[FH := LedgerDrop(w2.ledgers[FH], 1)];
    assert w2.bufs - {FH} == w3.bufs;
    ReachStep(w2, DropAged(FH), w3);
  }

  /** The window between the background task's two locks is real: the write is dropped, close() is
      about to be answered Ok, and the sticky error is not set yet. */
  lemma {:induction false} DropBeforeMarkWitness(b: Byte) returns (w: World)
    ensures Reachable(w) && Allowed(w, Answer) && w.fuse.fh == FH && FH in w.open
    ensures !w.open[FH].target.entry.append && FlushReply(w.fuse.err, FH in w.errors).None?
    ensures FH in w.ledgers && MarkPending(w, FH) && !SafeSinceLastError(w.ledgers[FH])
    ensures w.ledgers[FH].accepted == [ChunkOf(0, b)] && w.ledgers[FH].fates == [Dropped]
  {
    hide Reachable;
    DropOne(b);
    w := Unmarked(b).(fuse := Answering(FH, None));
    ReachStep(Unmarked(b), SawEmpty(FH), w);
    assert w.ledgers[FH].accepted[0].run.data != [];
  }

  // ----- the first flush -----

  lemma SnapshotOfOne(r: Run)
    ensures Snapshot([r]) == [r]
  {
    assert SortByOffset([r]) == Insert(r, []) == [r];
    assert Merged([r]) == Merged([]) + [r];
  }

  lemma OneChunk(offset: nat, b: Byte)
    ensures var rs := Payload([ChunkOf(offset, b)]);
            rs == [Run(offset, [b])] && Snapshot(rs) == [Run(offset, [b])] && DataOf(Snapshot(rs)) == [b]
  {
    assert Payload([ChunkOf(offset, b)]) == [Run(offset, [b])];
    SnapshotOfOne(Run(offset, [b]));
    assert DataOf([Run(offset, [b])]) == DataOf([]) + [b];
  }

  function OldFlush(append: bool, a: Byte, sent: nat, rpc: Option<Entry>): Phase {
    Flushing(FH, First(append), Flight(0, 0, 1, [Run(0, [a])], sent), rpc)
  }

  /** The history once the first chunk is being flushed. */
  function Flushed(a: Byte, landed: seq<Byte>, landings: seq<Landing>): Ledger {
    Ledger([], [ChunkOf(0, a)], [], 0, true, true, [Batch(0, 1, [a], landed)], landings)
  }

  function Resolved(append: bool, a: Byte): World {
    JustWritten(append, a).(bg := Ready(FH, First(append)))
  }

  /** The background task has begun to flush the first chunk. */
  function Begun(append: bool, a: Byte): World {
    WorldOf([], OneSession(append), OpenFile(First(append), 0), Some(HandleBuf([ChunkOf(0, a)], true)), false,
            Idle, OldFlush(append, a, 0, None), Flushed(a, [], []))
  }

  /** The server has looked the handle up for its Write RPC. */
  function Sent(append: bool, a: Byte): World {
    Begun(append, a).(bg := OldFlush(append, a, 0, Some(Entry(PATH, append))))
  }

  lemma ResolveOld(append: bool, a: Byte)
    ensures Reachable(Resolved(append, a))
  {
    hide Reachable;
    WriteOne(append, a);
    ReachStep(JustWritten(append, a), Resolve(Background, FH), Resolved(append, a));
  }

  lemma BeginOldLedger(a: Byte)
    ensures var q, l := [ChunkOf(0, a)], Ledger([], [ChunkOf(0, a)], [], 0, true, true, [], []);
            LedgerBegin(l, q) == Flushed(a, [], []) && FlightOf(l, q) == Flight(0, 0, 1, [Run(0, [a])], 0)
  {
    hide Snapshot, DataOf, Payload;
    OneChunk(0, a);
  }

  lemma BeginOld(append: bool, a: Byte)
    ensures Reachable(Begun(append, a))
  {
    hide Reachable, LedgerBegin, FlightOf, Snapshot, Payload, DataOf, Flushed;
    ResolveOld(append, a);
    BeginOldLedger(a);
    var w3, w4 := Resolved(append, a), Begun(append, a);
    assert w4.bufs == w3.bufs[FH := w3.bufs[FH].(sending := true)];
    assert w4.ledgers == w3.ledgers[FH := Flushed(a, [], [])];
    ReachStep(w3, BeginFlush(Background), w4);
  }

  lemma SendOld(append: bool, a: Byte)
    ensures Reachable(Sent(append, a))
  {
    hide Reachable;
    BeginOld(append, a);
    ReachStep(Begun(append, a), StartRpc(Background, 0), Sent(append, a));
  }

  // ----- a reopen drops an O_APPEND queue under the flush -----

  function TwoSessions(): seq<Session<Entry>> {
    OneSession(true) + [Session(1, 1, map[EPOCHS + 1 := Entry(PATH, true)])]
  }

  function Second(): Target {
    Target(EPOCHS + 1, 1, Entry(PATH, true))
  }

  function InFlightOld(a: Byte): Phase {
    OldFlush(true, a, 0, Some(Entry(PATH, true)))
  }

  function Stale(a: Byte): World {
    Sent(true, a).(sessions := OneSession(true) + [Session(1, 0, map[])], fuse := Resolving(FH, 1))
  }

  /** A reconnect, and the FUSE thread has reopened the handle. */
  function Reopen(a: Byte): World {
    WorldOf([], TwoSessions(), OpenFile(Second(), 1), Some(HandleBuf([ChunkOf(0, a)], true)), false,
            Restamped(FH, Second()), InFlightOld(a), Flushed(a, [], []))
  }

  lemma ReconnectAndResolve(a: Byte)
    ensures Reachable(Stale(a))
  {
    hide Reachable;
    SendOld(true, a);
    var w5 := Sent(true, a).(sessions := OneSession(true) + [Session(1, 0, map[])]);
    ReachStep(Sent(true, a), Reconnect(1), w5);
    ReachStep(w5, Resolve(Fuse, FH), Stale(a));
  }

  lemma ReconnectAndReopen(a: Byte)
    ensures Reachable(Reopen(a))
  {
    hide Reachable;
    ReconnectAndResolve(a);
    var w6 := Stale(a);
    var w7 := w6.(sessions := TwoSessions(), fuse := Reopened(FH, 1, Second()));
    var s := w6.sessions[1];
    assert s.NextId() == EPOCHS + 1 && s.Issue(Entry(PATH, true)) == TwoSessions()[1];
    assert w6.sessions[1 := s.Issue(Entry(PATH, true))] == TwoSessions();
    ReachStep(w6, ReopenReply, w7);
    assert w7.open[FH := OpenFile(Second(), 1)] == Reopen(a).open;
    ReachStep(w7, Stamp, Reopen(a));
  }

  /** The history once the queue was dropped under the flush. */
  function History(a: Byte, later: seq<Chunk>, fates: seq<Fate>, reported: nat, batches: seq<Batch>,
                   landings: seq<Landing>): Ledger {
    Ledger([], [ChunkOf(0, a)] + later, fates, reported, true, false, batches, landings)
  }

  function Discarded(a: Byte): World {
    WorldOf([], TwoSessions(), OpenFile(Second(), 1), None, true, Ready(FH, Second()), InFlightOld(a),
            History(a, [], [Dropped], 0, [Batch(0, 1, [a], [])], []))
  }

  lemma Discard(a: Byte)
    ensures Reachable(Discarded(a))
  {
    hide Reachable;
    ReconnectAndReopen(a);
    var w8, w9 := Reopen(a), Discarded(a);
    assert Repeat(Dropped, 1) == [Dropped];
    assert w8.Queue(FH) == [ChunkOf(0, a)] && LastWithData(w8.Queue(FH)).Some?;
    assert w8.bufs - {FH} == map[];
    assert w9.ledgers[FH] == LedgerDrop(w8.ledgers[FH], 1).(undisturbed := false);
    assert w9.ledgers == w8.ledgers[FH := w9.ledgers[FH]];
    ReachStep(w8, DropUnreplayable, w9);
  }

  // ----- ack by count: an append nobody sent -----

  /** The error has been reported. */
  function Reported(a: Byte): World {
    WorldOf([], TwoSessions(), OpenFile(Second(), 1), None, false, Idle, InFlightOld(a),
            History(a, [], [Dropped], 1, [Batch(0, 1, [a], [])], []))
  }

  lemma DropAndReport(a: Byte)
    ensures Reachable(Reported(a))
  {
    hide Reachable;
    Discard(a);
    var w9 := Discarded(a);
    var w10 := w9.(fuse := Idle);
    ReachStep(w9, Abandon(Fuse), w10);
    var w11 := w10.(fuse := Answering(FH, None));
    ReachStep(w10, SawEmpty(FH), w11);
    assert w11.errors - {FH} == {};
    assert Reported(a).ledgers == w11.ledgers[FH := w11.ledgers[FH].(reported := 1)];
    ReachStep(w11, Answer, Reported(a));
  }

  function Rewritten(a: Byte, b: Byte): World {
    WorldOf([], TwoSessions(), OpenFile(Second(), 1), Some(HandleBuf([ChunkOf(1, b)], false)), false,
            Idle, InFlightOld(a), History(a, [ChunkOf(1, b)], [Dropped], 1, [Batch(0, 1, [a], [])], []))
  }

  /** A new append is queued and the old flush's only run has been acknowledged. */
  function Delivered(a: Byte, b: Byte): World {
    WorldOf([a], TwoSessions(), OpenFile(Second(), 1), Some(HandleBuf([ChunkOf(1, b)], false)), false,
            Idle, OldFlush(true, a, 1, None),
            History(a, [ChunkOf(1, b)], [Dropped], 1, [Batch(0, 1, [a], [a])], [Landing(0, [a])]))
  }

  lemma WriteAgain(a: Byte, b: Byte)
    ensures Reachable(Rewritten(a, b))
  {
    hide Reachable;
    DropAndReport(a);
    NothingQueued();
    var w12, w13, c := Reported(a), Rewritten(a, b), ChunkOf(1, b);
    assert w13.ledgers[FH].accepted == w12.ledgers[FH].accepted + [c];
    assert w13.ledgers == w12.ledgers[FH := w13.ledgers[FH]];
    assert w13.bufs == Buffers.Put(w12.bufs, FH, Some(Enqueued(None, c)));
    ReachStep(w12, Write(FH, c), w13);
  }

  lemma LandFirst(l: Ledger, l': Ledger, a: Byte)
    requires l.batches == [Batch(0, 1, [a], [])] && l.landings == []
    requires l' == l.(batches := [Batch(0, 1, [a], [a])], landings := [Landing(0, [a])])
    ensures LedgerLand(l, Flight(0, 0, 1, [Run(0, [a])], 0), [a]) == l'
  {
    var nothing: seq<Byte> := [];
    assert nothing + [a] == [a];
  }

  lemma WriteAndDeliver(a: Byte, b: Byte)
    ensures Reachable(Delivered(a, b))
  {
    hide Reachable;
    WriteAgain(a, b);
    var w13, w14 := Rewritten(a, b), Delivered(a, b);
    LandFirst(w13.ledgers[FH], w14.ledgers[FH], a);
    var nothing: seq<Byte> := [];
    assert nothing + [a] == [a];
    assert w14.ledgers == w13.ledgers[FH := w14.ledgers[FH]];
    assert w14.files == w13.files[PATH := nothing + [a]];
    assert Mount.Others(w13, FH, PATH) == {};
    ReachStep(w13, DeliverRun(Background), w14);
  }

  /** The old flush's ack has removed the new append. */
  function Gone(a: Byte, b: Byte): World {
    WorldOf([a], TwoSessions(), OpenFile(Second(), 1), None, false, Idle, Idle,
            History(a, [ChunkOf(1, b)], [Dropped, Lost], 1, [Batch(0, 1, [a], [a])], [Landing(0, [a])]))
  }

  /** The first flush carried one chunk, so its ack finds its snapshot in order. */
  lemma FirstWasInOrder(accepted: seq<Chunk>, a: Byte, sent: nat)
    requires |accepted| > 0 && accepted[0] == ChunkOf(0, a)
    ensures SentInOrder(accepted, Flight(0, 0, 1, [Run(0, [a])], sent))
  {
    assert accepted[0..1] == [ChunkOf(0, a)];
    OneChunk(0, a);
    AscendingIsSafe([Run(0, [a])]);
  }

  lemma AckOld(a: Byte, b: Byte)
    ensures Reachable(Gone(a, b))
  {
    hide Reachable, SentInOrder;
    WriteAndDeliver(a, b);
    var w14, w15 := Delivered(a, b), Gone(a, b);
    FirstWasInOrder(w14.ledgers[FH].accepted, a, 1);
    assert AckFates(w14.bg.flight, 1, 1) == [Lost];
    assert w14.bufs - {FH} == w15.bufs;
    assert w15.ledgers[FH] == LedgerAck(w14.ledgers[FH], w14.bg.flight, 1);
    assert w15.ledgers == w14.ledgers[FH := w15.ledgers[FH]];
    ReachStep(w14, AckFlush(Background), w15);
  }

  /** On an O_APPEND handle the ack by count can remove a chunk it never sent: a reopen drops the
      queue under a background flush and reports it, a new append is accepted, the old flush's ack
      removes it, and the next close() is answered Ok with the append nowhere. */
  lemma {:induction false} AppendAckByCountWitness(a: Byte, b: Byte) returns (w: World)
    ensures Reachable(w) && Allowed(w, Answer) && w.fuse.fh == FH && FH in w.open
    ensures w.open[FH].target.entry.append && FlushReply(w.fuse.err, FH in w.errors).None? && w.bg.Idle?
    ensures FH in w.ledgers && FH !in w.bufs && !w.ledgers[FH].undisturbed
    ensures w.ledgers[FH].accepted == [ChunkOf(0, a), ChunkOf(1, b)] && w.ledgers[FH].reported == 1
    ensures w.ledgers[FH].fates == [Dropped, Lost] && PATH in w.files && w.files[PATH] == [a]
  {
    hide Reachable;
    AckOld(a, b);
    w := Gone(a, b).(fuse := Answering(FH, None));
    ReachStep(Gone(a, b), SawEmpty(FH), w);
  }

  // ----- an append that lands twice -----

  /** One of the worlds of this run: the FUSE thread and the background task on the reopened handle,
      two more appends `x` and `y` accepted. */
  function Racing(file: Content, queue: seq<Chunk>, sending: bool, fuse: Phase, bg: Phase, l: Ledger): World {
    WorldOf(file, TwoSessions(), OpenFile(Second(), 1), Some(HandleBuf(queue, sending)), true, fuse, bg, l)
  }

  function Past(a: Byte, x: Byte, y: Byte, fates: seq<Fate>, batches: seq<Batch>, landings: seq<Landing>): Ledger {
    History(a, [ChunkOf(1, x), ChunkOf(2, y)], fates, 0, batches, landings)
  }

  function OldBatch(a: Byte, landed: seq<Byte>): Batch {
    Batch(0, 1, [a], landed)
  }

  function OneMore(a: Byte, x: Byte): World {
    Racing([], [ChunkOf(1, x)], false, Idle, InFlightOld(a),
           History(a, [ChunkOf(1, x)], [Dropped], 0, [OldBatch(a, [])], []))
  }

  function TwoMore(a: Byte, x: Byte, y: Byte): World {
    Racing([], [ChunkOf(1, x), ChunkOf(2, y)], false, Idle, InFlightOld(a),
           Past(a, x, y, [Dropped], [OldBatch(a, [])], []))
  }

  lemma WriteX(a: Byte, x: Byte)
    ensures Reachable(OneMore(a, x))
  {
    hide Reachable;
    Discard(a);
    NothingQueued();
    var w1, w2, c := Discarded(a).(fuse := Idle), OneMore(a, x), ChunkOf(1, x);
    ReachStep(Discarded(a), Abandon(Fuse), w1);
    assert w2.ledgers[FH].accepted == w1.ledgers[FH].accepted + [c];
    assert w2.ledgers == w1.ledgers[FH := w2.ledgers[FH]];
    assert w2.bufs == Buffers.Put(w1.bufs, FH, Some(Enqueued(None, c)));
    ReachStep(w1, Write(FH, c), w2);
  }

  lemma WriteY(a: Byte, x: Byte, y: Byte)
    ensures Reachable(TwoMore(a, x, y))
  {
    hide Reachable;
    WriteX(a, x);
    OneQueued(FH, ChunkOf(1, x), false);
    var w2, w3, c := OneMore(a, x), TwoMore(a, x, y), ChunkOf(2, y);
    assert w3.ledgers[FH].accepted == w2.ledgers[FH].accepted + [c];
    assert w3.ledgers == w2.ledgers[FH := w3.ledgers[FH]];
    assert [ChunkOf(1, x)] + [c] == [ChunkOf(1, x), c];
    assert w3.bufs == Buffers.Put(w2.bufs, FH, Some(Enqueued(Some(w2.bufs[FH]), c)));
    ReachStep(w2, Write(FH, c), w3);
  }

  lemma SortTwo(p: Run, q: Run)
    requires p.offset <= q.offset
    ensures SortByOffset([p, q]) == [p, q]
  {
    assert [p, q][..1] == [p];
    assert SortByOffset([p]) == Insert(p, []) == [p];
  }

  lemma MergeTwo(x: Byte, y: Byte)
    ensures Merged([Run(1, [x]), Run(2, [y])]) == [Run(1, [x, y])]
  {
    var p, q := Run(1, [x]), Run(2, [y]);
    assert [p, q][..1] == [p];
    assert Merged([p]) == Join([], p) == [p];
    assert [x] + [y] == [x, y];
  }

  lemma SnapshotOfTwo(x: Byte, y: Byte)
    ensures var rs := Payload([ChunkOf(1, x), ChunkOf(2, y)]);
            Snapshot(rs) == [Run(1, [x, y])] && DataOf(Snapshot(rs)) == [x, y]
  {
    hide SortByOffset, Merged;
    assert Payload([ChunkOf(1, x), ChunkOf(2, y)]) == [Run(1, [x]), Run(2, [y])];
    SortTwo(Run(1, [x]), Run(2, [y]));
    MergeTwo(x, y);
    assert DataOf([Run(1, [x, y])]) == DataOf([]) + [x, y];
  }

  function NewFlush(x: Byte, y: Byte, sent: nat, rpc: Option<Entry>): Phase {
    Flushing(FH, Second(), Flight(1, 1, 2, [Run(1, [x, y])], sent), rpc)
  }

  function NewBatch(x: Byte, y: Byte, landed: seq<Byte>): Batch {
    Batch(1, 2, [x, y], landed)
  }

  /** The FUSE thread is flushing both. */
  function BothSending(a: Byte, x: Byte, y: Byte): World {
    Racing([], [ChunkOf(1, x), ChunkOf(2, y)], true, NewFlush(x, y, 0, None), InFlightOld(a),
           Past(a, x, y, [Dropped], [OldBatch(a, []), NewBatch(x, y, [])], []))
  }

  lemma BeginNewLedger(a: Byte, x: Byte, y: Byte)
    ensures var q, l := [ChunkOf(1, x), ChunkOf(2, y)], Past(a, x, y, [Dropped], [OldBatch(a, [])], []);
            && LedgerBegin(l, q) == Past(a, x, y, [Dropped], [OldBatch(a, []), NewBatch(x, y, [])], [])
            && FlightOf(l, q) == Flight(1, 1, 2, [Run(1, [x, y])], 0)
  {
    hide Snapshot, DataOf, Payload;
    SnapshotOfTwo(x, y);
    assert [OldBatch(a, [])] + [NewBatch(x, y, [])] == [OldBatch(a, []), NewBatch(x, y, [])];
  }

  lemma BeginNew(a: Byte, x: Byte, y: Byte)
    ensures Reachable(BothSending(a, x, y))
  {
    hide Reachable, LedgerBegin, FlightOf, Snapshot, Payload, DataOf, Past;
    WriteY(a, x, y);
    BeginNewLedger(a, x, y);
    var w3 := TwoMore(a, x, y);
    var w4, w5 := w3.(fuse := Ready(FH, Second())), BothSending(a, x, y);
    ReachStep(w3, Resolve(Fuse, FH), w4);
    assert w5.bufs == w4.bufs[FH := w4.bufs[FH].(sending := true)];
    assert w5.ledgers == w4.ledgers[FH := w5.ledgers[FH]];
    ReachStep(w4, BeginFlush(Fuse), w5);
  }

  function OldDone(a: Byte, x: Byte, y: Byte): World {
    Racing([a], [ChunkOf(1, x), ChunkOf(2, y)], true, NewFlush(x, y, 0, None), OldFlush(true, a, 1, None),
           Past(a, x, y, [Dropped], [OldBatch(a, [a]), NewBatch(x, y, [])], [Landing(0, [a])]))
  }

  lemma DeliverOld(a: Byte, x: Byte, y: Byte)
    ensures Reachable(OldDone(a, x, y))
  {
    hide Reachable;
    BeginNew(a, x, y);
    var w5, w6 := BothSending(a, x, y), OldDone(a, x, y);
    var nothing: seq<Byte> := [];
    assert nothing + [a] == [a];
    assert w6.ledgers[FH].batches
        == w5.ledgers[FH].batches[0 := w5.ledgers[FH].batches[0].(landed := nothing + [a])];
    assert w6.ledgers[FH] == LedgerLand(w5.ledgers[FH], w5.bg.flight, [a]);
    assert w6.ledgers == w5.ledgers[FH := w6.ledgers[FH]];
    assert w6.files == w5.files[PATH := nothing + [a]];
    assert Mount.Others(w5, FH, PATH) == {};
    ReachStep(w5, DeliverRun(Background), w6);
  }

  /** The old flush's ack has removed `x` and freed the guard of the new one. */
  function GuardFreed(a: Byte, x: Byte, y: Byte): World {
    Racing([a], [ChunkOf(2, y)], false, NewFlush(x, y, 0, None), Idle,
           Past(a, x, y, [Dropped, Lost], [OldBatch(a, [a]), NewBatch(x, y, [])], [Landing(0, [a])]))
  }

  lemma AckFrees(a: Byte, x: Byte, y: Byte)
    ensures Reachable(GuardFreed(a, x, y))
  {
    hide Reachable, SentInOrder;
    DeliverOld(a, x, y);
    var w6, w7 := OldDone(a, x, y), GuardFreed(a, x, y);
    FirstWasInOrder(w6.ledgers[FH].accepted, a, 1);
    assert AckFates(w6.bg.flight, 1, 1) == [Lost];
    assert [ChunkOf(1, x), ChunkOf(2, y)][1..] == [ChunkOf(2, y)];
    assert w7.ledgers[FH] == LedgerAck(w6.ledgers[FH], w6.bg.flight, 1);
    assert w7.ledgers == w6.ledgers[FH := w7.ledgers[FH]];
    assert w7.bufs == w6.bufs[FH := HandleBuf([ChunkOf(2, y)], false)];
    ReachStep(w6, AckFlush(Background), w7);
  }

  function AgainFlush(y: Byte, sent: nat, rpc: Option<Entry>): Phase {
    Flushing(FH, Second(), Flight(2, 2, 1, [Run(2, [y])], sent), rpc)
  }

  function AgainBatch(y: Byte, landed: seq<Byte>): Batch {
    Batch(2, 1, [y], landed)
  }

  /** The background task flushes `y`, which the FUSE thread is still sending. */
  function SendingTwice(a: Byte, x: Byte, y: Byte): World {
    Racing([a], [ChunkOf(2, y)], true, NewFlush(x, y, 0, None), AgainFlush(y, 0, None),
           Past(a, x, y, [Dropped, Lost], [OldBatch(a, [a]), NewBatch(x, y, []), AgainBatch(y, [])], [Landing(0, [a])]))
  }

  lemma BeginAgainLedger(a: Byte, x: Byte, y: Byte)
    ensures var q := [ChunkOf(2, y)];
            var l := Past(a, x, y, [Dropped, Lost], [OldBatch(a, [a]), NewBatch(x, y, [])], [Landing(0, [a])]);
            var batches := [OldBatch(a, [a]), NewBatch(x, y, []), AgainBatch(y, [])];
            && LedgerBegin(l, q) == Past(a, x, y, [Dropped, Lost], batches, [Landing(0, [a])])
            && FlightOf(l, q) == Flight(2, 2, 1, [Run(2, [y])], 0)
  {
    hide Snapshot, DataOf, Payload;
    OneChunk(2, y);
    assert [OldBatch(a, [a]), NewBatch(x, y, [])] + [AgainBatch(y, [])]
        == [OldBatch(a, [a]), NewBatch(x, y, []), AgainBatch(y, [])];
  }

  function ReadyAgain(a: Byte, x: Byte, y: Byte): World {
    GuardFreed(a, x, y).(bg := Ready(FH, Second()))
  }

  lemma ResolveAgain(a: Byte, x: Byte, y: Byte)
    ensures Reachable(ReadyAgain(a, x, y)) && ResendsAt(ReadyAgain(a, x, y), BeginFlush(Background), FH)
  {
    hide Reachable;
    AckFrees(a, x, y);
    ReachStep(GuardFreed(a, x, y), Resolve(Background, FH), ReadyAgain(a, x, y));
  }

  lemma BeginAgain(a: Byte, x: Byte, y: Byte)
    ensures Reachable(SendingTwice(a, x, y))
  {
    hide Reachable, ResendsAt, LedgerBegin, FlightOf, Snapshot, Payload, DataOf, Past;
    ResolveAgain(a, x, y);
    BeginAgainLedger(a, x, y);
    var w8, w9 := ReadyAgain(a, x, y), SendingTwice(a, x, y);
    assert w9.bufs == w8.bufs[FH := w8.bufs[FH].(sending := true)];
    assert w9.ledgers == w8.ledgers[FH := w9.ledgers[FH]];
    ReachStep(w8, BeginFlush(Background), w9);
  }

  function OnceThere(a: Byte, x: Byte, y: Byte): World {
    Racing([a, x, y], [ChunkOf(2, y)], true, NewFlush(x, y, 1, None), AgainFlush(y, 0, None),
           Past(a, x, y, [Dropped, Lost], [OldBatch(a, [a]), NewBatch(x, y, [x, y]), AgainBatch(y, [])],
                [Landing(0, [a]), Landing(1, [x, y])]))
  }

  function NewLookedUp(a: Byte, x: Byte, y: Byte): World {
    SendingTwice(a, x, y).(fuse := NewFlush(x, y, 0, Some(Entry(PATH, true))))
  }

  lemma StartNew(a: Byte, x: Byte, y: Byte)
    ensures Reachable(NewLookedUp(a, x, y))
  {
    hide Reachable, Past;
    BeginAgain(a, x, y);
    ReachStep(SendingTwice(a, x, y), StartRpc(Fuse, 1), NewLookedUp(a, x, y));
  }

  lemma DeliverNew(a: Byte, x: Byte, y: Byte)
    ensures Reachable(OnceThere(a, x, y))
  {
    hide Reachable;
    StartNew(a, x, y);
    var w10, w11 := NewLookedUp(a, x, y), OnceThere(a, x, y);
    var nothing: seq<Byte> := [];
    assert nothing + [x, y] == [x, y] && [a] + [x, y] == [a, x, y];
    assert w11.ledgers[FH].batches
        == w10.ledgers[FH].batches[1 := w10.ledgers[FH].batches[1].(landed := nothing + [x, y])];
    assert w11.ledgers[FH].landings == w10.ledgers[FH].landings + [Landing(1, [x, y])];
    assert w11.ledgers[FH] == LedgerLand(w10.ledgers[FH], w10.fuse.flight, [x, y]);
    assert w11.ledgers == w10.ledgers[FH := w11.ledgers[FH]];
    assert w11.files == w10.files[PATH := [a] + [x, y]];
    assert Mount.Others(w10, FH, PATH) == {};
    ReachStep(w10, DeliverRun(Fuse), w11);
  }

  function TwiceThere(a: Byte, x: Byte, y: Byte): World {
    Racing([a, x, y, y], [ChunkOf(2, y)], true, NewFlush(x, y, 1, None), AgainFlush(y, 1, None),
           Past(a, x, y, [Dropped, Lost], [OldBatch(a, [a]), NewBatch(x, y, [x, y]), AgainBatch(y, [y])],
                [Landing(0, [a]), Landing(1, [x, y]), Landing(2, [y])]))
  }

  function AgainLookedUp(a: Byte, x: Byte, y: Byte): World {
    OnceThere(a, x, y).(bg := AgainFlush(y, 0, Some(Entry(PATH, true))))
  }

  lemma StartAgain(a: Byte, x: Byte, y: Byte)
    ensures Reachable(AgainLookedUp(a, x, y))
  {
    hide Reachable, Past;
    DeliverNew(a, x, y);
    ReachStep(OnceThere(a, x, y), StartRpc(Background, 1), AgainLookedUp(a, x, y));
  }

  lemma DeliverAgain(a: Byte, x: Byte, y: Byte)
    ensures Reachable(TwiceThere(a, x, y))
  {
    hide Reachable;
    StartAgain(a, x, y);
    var w12, w13 := AgainLookedUp(a, x, y), TwiceThere(a, x, y);
    var nothing: seq<Byte> := [];
    assert nothing + [y] == [y] && [a, x, y] + [y] == [a, x, y, y];
    assert w13.ledgers[FH].batches
        == w12.ledgers[FH].batches[2 := w12.ledgers[FH].batches[2].(landed := nothing + [y])];
    assert w13.ledgers[FH].landings == w12.ledgers[FH].landings + [Landing(2, [y])];
    assert w13.ledgers[FH] == LedgerLand(w12.ledgers[FH], w12.bg.flight, [y]);
    assert w13.ledgers == w12.ledgers[FH := w13.ledgers[FH]];
    assert w13.files == w12.files[PATH := [a, x, y] + [y]];
    assert Mount.Others(w12, FH, PATH) == {};
    ReachStep(w12, DeliverRun(Background), w13);
  }

  /** An append can land twice: a reopen drops the queue under a background flush, the FUSE thread
      flushes two new appends, the old flush's ack removes the first and frees the guard, and the
      background task sends the second again. */
  lemma {:induction false} AppendTwiceWitness(a: Byte, x: Byte, y: Byte) returns (w: World)
    ensures Reachable(w) && FH in w.open && w.open[FH].target.entry.append && FH in w.ledgers
    ensures w.ledgers[FH].accepted == [ChunkOf(0, a), ChunkOf(1, x), ChunkOf(2, y)]
    ensures PATH in w.files && w.files[PATH] == [a, x, y, y] && FH !in w.intruded
    ensures !SentOnce(w.ledgers[FH])
  {
    hide Reachable, LandsPrefixes;
    DeliverAgain(a, x, y);
    w := TwiceThere(a, x, y);
    var bs := w.ledgers[FH].batches;
    assert Sends(bs[1], 2) && Sends(bs[2], 2);
  }

  // ----- bytes of a released handle -----

  const NEXT: Fh := 2

  /** The old handle is released with its flush in flight; the server has forgotten the handle but
      not the RPC. */
  function Released(a: Byte): World {
    World(100, map[PATH := []], [Session(0, 1, map[])], map[], NEXT, map[], {}, Idle,
          OldFlush(false, a, 0, Some(Entry(PATH, false))), map[FH := Flushed(a, [], [])], {})
  }

  lemma ReleaseOld(a: Byte)
    ensures Reachable(Released(a))
  {
    hide Reachable;
    SendOld(false, a);
    var w1, w2 := Sent(false, a), Released(a);
    assert w1.open - {FH} == map[] && w1.bufs - {FH} == map[];
    assert w1.sessions[0].table - {1} == map[];
    assert w1.sessions[0 := w1.sessions[0].(table := w1.sessions[0].table - {1})] == w2.sessions;
    ReachStep(w1, Release(FH, true), w2);
  }

  function NextTarget(): Target {
    Target(2, 0, Entry(PATH, false))
  }

  /** The path is open again as handle 2. */
  function Reused(file: Content, buf: Option<HandleBuf>, fuse: Phase, bg: Phase, was: Ledger, l: Ledger,
                  intruded: set<Fh>): World {
    World(100, map[PATH := file], [Session(0, 2, map[2 := Entry(PATH, false)])],
          map[NEXT := OpenFile(NextTarget(), 0)], NEXT + 1, if buf.None? then map[] else map[NEXT := buf.value], {},
          fuse, bg, map[FH := was, NEXT := l], intruded)
  }

  function StillFlying(a: Byte): Phase {
    OldFlush(false, a, 0, Some(Entry(PATH, false)))
  }

  function NextLedger(b: Byte, fates: seq<Fate>, batches: seq<Batch>, landings: seq<Landing>): Ledger {
    Ledger([], [ChunkOf(0, b)], fates, 0, true, true, batches, landings)
  }

  function NextOpened(a: Byte): World {
    Reused([], None, Idle, StillFlying(a), Flushed(a, [], []), Opened([]), {})
  }

  function NextWritten(a: Byte, b: Byte): World {
    Reused([], Some(HandleBuf([ChunkOf(0, b)], false)), Idle, StillFlying(a), Flushed(a, [], []),
           NextLedger(b, [], [], []), {})
  }

  lemma OpenNext(a: Byte)
    ensures Reachable(NextOpened(a))
  {
    hide Reachable;
    ReleaseOld(a);
    var w2, w3 := Released(a), NextOpened(a);
    var s := w2.sessions[0];
    assert s.NextId() == 2 && s.Issue(Entry(PATH, false)) == w3.sessions[0];
    assert w2.sessions[0 := s.Issue(Entry(PATH, false))] == w3.sessions;
    assert w3.open == w2.open[NEXT := OpenFile(NextTarget(), 0)];
    assert w3.ledgers == w2.ledgers[NEXT := Opened([])];
    ReachStep(w2, Open(PATH, false), w3);
  }

  lemma WriteNext(a: Byte, b: Byte)
    ensures Reachable(NextWritten(a, b))
  {
    hide Reachable;
    OpenNext(a);
    NothingQueued();
    var w3, w4, c := NextOpened(a), NextWritten(a, b), ChunkOf(0, b);
    assert w4.ledgers[NEXT].accepted == w3.ledgers[NEXT].accepted + [c];
    assert w4.ledgers == w3.ledgers[NEXT := w4.ledgers[NEXT]];
    assert w4.bufs == Buffers.Put(w3.bufs, NEXT, Some(Enqueued(None, c)));
    ReachStep(w3, Write(NEXT, c), w4);
  }

  function NextFlush(b: Byte, sent: nat, rpc: Option<Entry>): Phase {
    Flushing(NEXT, NextTarget(), Flight(0, 0, 1, [Run(0, [b])], sent), rpc)
  }

  function NextBegun(a: Byte, b: Byte): World {
    Reused([], Some(HandleBuf([ChunkOf(0, b)], true)), NextFlush(b, 0, None), StillFlying(a), Flushed(a, [], []),
           NextLedger(b, [], [Batch(0, 1, [b], [])], []), {})
  }

  lemma BeginNext(a: Byte, b: Byte)
    ensures Reachable(NextBegun(a, b))
  {
    hide Reachable, LedgerBegin, FlightOf, Snapshot, Payload, DataOf, Flushed;
    WriteNext(a, b);
    BeginNextLedger(b);
    var w4, w6 := NextWritten(a, b), NextBegun(a, b);
    var w5 := w4.(fuse := Ready(NEXT, NextTarget()));
    ReachStep(w4, Resolve(Fuse, NEXT), w5);
    assert w6.bufs == w5.bufs[NEXT := w5.bufs[NEXT].(sending := true)];
    assert w6.ledgers == w5.ledgers[NEXT := w6.ledgers[NEXT]];
    ReachStep(w5, BeginFlush(Fuse), w6);
  }

  lemma BeginNextLedger(b: Byte)
    ensures var q, l := [ChunkOf(0, b)], NextLedger(b, [], [], []);
            && LedgerBegin(l, q) == NextLedger(b, [], [Batch(0, 1, [b], [])], [])
            && FlightOf(l, q) == Flight(0, 0, 1, [Run(0, [b])], 0)
  {
    hide Snapshot, DataOf, Payload;
    OneChunk(0, b);
  }

  function NextDelivered(a: Byte, b: Byte): World {
    Reused([b], Some(HandleBuf([ChunkOf(0, b)], true)), NextFlush(b, 1, None), StillFlying(a), Flushed(a, [], []),
           NextLedger(b, [], [Batch(0, 1, [b], [b])], [Landing(0, [b])]), {})
  }

  lemma WriteOver(f: Content, b: Byte)
    requires |f| <= 1
    ensures WriteAt(f, Run(0, [b])) == [b]
  {
  }

  lemma DeliverNext(a: Byte, b: Byte)
    ensures Reachable(NextDelivered(a, b))
  {
    hide Reachable, Flushed;
    BeginNext(a, b);
    var w6, w8 := NextBegun(a, b), NextDelivered(a, b);
    var w7 := w6.(fuse := NextFlush(b, 0, Some(Entry(PATH, false))));
    ReachStep(w6, StartRpc(Fuse, 0), w7);
    WriteOver([], b);
    LandFirst(w7.ledgers[NEXT], w8.ledgers[NEXT], b);
    assert w8.ledgers == w7.ledgers[NEXT := w8.ledgers[NEXT]];
    assert w8.files == w7.files[PATH := [b]];
    assert Mount.Others(w7, NEXT, PATH) == {};
    ReachStep(w7, DeliverRun(Fuse), w8);
  }

  function NextAcked(a: Byte, b: Byte): World {
    Reused([b], None, Idle, StillFlying(a), Flushed(a, [], []),
           NextLedger(b, [Acked], [Batch(0, 1, [b], [b])], [Landing(0, [b])]), {})
  }

  lemma AckNext(a: Byte, b: Byte)
    ensures Reachable(NextAcked(a, b))
  {
    hide Reachable, SentInOrder, Flushed;
    DeliverNext(a, b);
    var w8, w9 := NextDelivered(a, b), NextAcked(a, b);
    FirstWasInOrder(w8.ledgers[NEXT].accepted, b, 1);
    assert AckFates(w8.fuse.flight, 0, 1) == [Acked];
    assert w8.bufs - {NEXT} == w9.bufs;
    assert w9.ledgers[NEXT] == LedgerAck(w8.ledgers[NEXT], w8.fuse.flight, 1);
    assert w9.ledgers == w8.ledgers[NEXT := w9.ledgers[NEXT]];
    ReachStep(w8, AckFlush(Fuse), w9);
  }

  function Overwritten(a: Byte, b: Byte): World {
    Reused([a], None, Answering(NEXT, None), OldFlush(false, a, 1, None), Flushed(a, [a], [Landing(0, [a])]),
           NextLedger(b, [Acked], [Batch(0, 1, [b], [b])], [Landing(0, [b])]), {NEXT})
  }

  lemma OldLands(a: Byte, b: Byte)
    ensures Reachable(Overwritten(a, b))
  {
    hide Reachable;
    AckNext(a, b);
    var w9, w11 := NextAcked(a, b), Overwritten(a, b);
    var w10 := w9.(fuse := Answering(NEXT, None));
    ReachStep(w9, SawEmpty(NEXT), w10);
    WriteOver([b], a);
    LandFirst(w10.ledgers[FH], w11.ledgers[FH], a);
    assert w11.ledgers == w10.ledgers[FH := w11.ledgers[FH]];
    assert w11.files == w10.files[PATH := [a]];
    assert Mount.Others(w10, FH, PATH) == {NEXT};
    ReachStep(w10, DeliverRun(Background), w11);
  }

  /** A released handle's flush can write to the file of the next handle: `release` gives up on a
      drain and drops the handle under the background task's Write RPC, the path is opened again,
      written and flushed, and then the old bytes land. close() is answered Ok, every write is acked,
      and the file is not what was written. */
  lemma {:induction false} ReleasedFlushWitness(a: Byte, b: Byte) returns (w: World)
    requires a != b
    ensures Reachable(w) && Allowed(w, Answer) && w.fuse.fh == NEXT && Seen(w, NEXT) && NEXT in w.intruded
    ensures !w.open[NEXT].target.entry.append && FlushReply(w.fuse.err, NEXT in w.errors).None?
    ensures w.ledgers[NEXT].ordered && w.ledgers[NEXT].reported == 0 && !MarkPending(w, NEXT)
    ensures SafeSinceLastError(w.ledgers[NEXT])
    ensures FileOf(w, NEXT) == [a] && WrittenThrough(w.ledgers[NEXT]) == [b]
  {
    hide Reachable;
    OldLands(a, b);
    w := Overwritten(a, b);
    assert Payload([ChunkOf(0, b)]) == [Run(0, [b])];
    assert ApplyAll([], [Run(0, [b])]) == WriteAt(ApplyAll([], []), Run(0, [b]));
    WriteOver([], b);
  }

  // ----- the sort by offset -----

  /** `(1, "b")` and then `(0, "aa")`. */
  function Crossing(a: Byte, b: Byte): seq<Chunk> {
    [ChunkOf(1, b), Chunk(Run(0, [a, a]), 0)]
  }

  function CrossRuns(a: Byte, b: Byte): seq<Run> {
    [Run(0, [a, a]), Run(1, [b])]
  }

  function CrossFlight(a: Byte, b: Byte, sent: nat): Flight {
    Flight(0, 0, 2, CrossRuns(a, b), sent)
  }

  function CrossFlush(a: Byte, b: Byte, sent: nat, rpc: Option<Entry>): Phase {
    Flushing(FH, First(false), CrossFlight(a, b, sent), rpc)
  }

  function CrossLedger(a: Byte, b: Byte, landed: seq<Byte>, landings: seq<Landing>): Ledger {
    Ledger([], Crossing(a, b), [], 0, true, true, [Batch(0, 2, [a, a, b], landed)], landings)
  }

  function CrossWorld(file: Content, queue: seq<Chunk>, sending: bool, fuse: Phase, l: Ledger): World {
    WorldOf(file, OneSession(false), OpenFile(First(false), 0), Some(HandleBuf(queue, sending)), false, fuse, Idle, l)
  }

  function HighWritten(b: Byte): World {
    CrossWorld([], [ChunkOf(1, b)], false, Idle, Ledger([], [ChunkOf(1, b)], [], 0, true, true, [], []))
  }

  function BothWritten(a: Byte, b: Byte): World {
    CrossWorld([], Crossing(a, b), false, Idle, Ledger([], Crossing(a, b), [], 0, true, true, [], []))
  }

  lemma WriteHigh(b: Byte)
    ensures Reachable(HighWritten(b))
  {
    hide Reachable;
    OpenOne(false);
    NothingQueued();
    var w1, w2, s := JustOpened(false), HighWritten(b), Write(FH, ChunkOf(1, b));
    assert Opened([]).accepted + [ChunkOf(1, b)] == [ChunkOf(1, b)];
    assert After(w1, s).bufs == w2.bufs;
    assert After(w1, s).ledgers == w2.ledgers;
    ReachStep(w1, s, w2);
  }

  lemma WriteLow(a: Byte, b: Byte)
    ensures Reachable(BothWritten(a, b))
  {
    hide Reachable;
    WriteHigh(b);
    OneQueued(FH, ChunkOf(1, b), false);
    var w2, w3, c := HighWritten(b), BothWritten(a, b), Chunk(Run(0, [a, a]), 0);
    assert [ChunkOf(1, b)] + [c] == Crossing(a, b);
    assert w3.ledgers == w2.ledgers[FH := w3.ledgers[FH]];
    assert w3.bufs == Buffers.Put(w2.bufs, FH, Some(Enqueued(Some(w2.bufs[FH]), c)));
    ReachStep(w2, Write(FH, c), w3);
  }

  lemma SnapshotOfCrossing(a: Byte, b: Byte)
    ensures var rs := Payload(Crossing(a, b));
            && rs == [Run(1, [b]), Run(0, [a, a])] && Snapshot(rs) == CrossRuns(a, b)
            && DataOf(Snapshot(rs)) == [a, a, b]
  {
    hide Snapshot;
    assert Payload(Crossing(a, b)) == [Run(1, [b]), Run(0, [a, a])];
    WitnessSnapshot(Run(1, [b]), Run(0, [a, a]));
    assert CrossRuns(a, b)[..1] == [Run(0, [a, a])];
    assert DataOf([Run(0, [a, a])]) == DataOf([]) + [a, a];
  }

  function CrossBegun(a: Byte, b: Byte): World {
    CrossWorld([], Crossing(a, b), true, CrossFlush(a, b, 0, None), CrossLedger(a, b, [], []))
  }

  lemma BeginCrossLedger(a: Byte, b: Byte)
    ensures var q, l := Crossing(a, b), Ledger([], Crossing(a, b), [], 0, true, true, [], []);
            LedgerBegin(l, q) == CrossLedger(a, b, [], []) && FlightOf(l, q) == CrossFlight(a, b, 0)
  {
    hide Snapshot, DataOf, Payload;
    SnapshotOfCrossing(a, b);
  }

  lemma BeginCross(a: Byte, b: Byte)
    ensures Reachable(CrossBegun(a, b))
  {
    hide Reachable, LedgerBegin, FlightOf, CrossLedger, CrossFlight;
    WriteLow(a, b);
    BeginCrossLedger(a, b);
    var w3, w5 := BothWritten(a, b), CrossBegun(a, b);
    var w4 := w3.(fuse := Ready(FH, First(false)));
    ReachStep(w3, Resolve(Fuse, FH), w4);
    assert w5.bufs == w4.bufs[FH := w4.bufs[FH].(sending := true)];
    assert w5.ledgers == w4.ledgers[FH := w5.ledgers[FH]];
    ReachStep(w4, BeginFlush(Fuse), w5);
  }

  function LowThere(a: Byte, b: Byte): World {
    CrossWorld([a, a], Crossing(a, b), true, CrossFlush(a, b, 1, None),
               CrossLedger(a, b, [a, a], [Landing(0, [a, a])]))
  }

  /** The server has looked the handle up for the next run. */
  function CrossSent(w: World, a: Byte, b: Byte, sent: nat): World {
    w.(fuse := CrossFlush(a, b, sent, Some(Entry(PATH, false))))
  }

  lemma StartCross(w: World, a: Byte, b: Byte, sent: nat)
    requires Reachable(w) && w.fuse == CrossFlush(a, b, sent, None) && sent < 2
    requires w.sessions == OneSession(false) && PATH in w.files
    ensures Reachable(CrossSent(w, a, b, sent))
  {
    hide Reachable;
    ReachStep(w, StartRpc(Fuse, 0), CrossSent(w, a, b, sent));
  }

  lemma LandLow(a: Byte, b: Byte)
    ensures LedgerLand(CrossLedger(a, b, [], []), CrossFlight(a, b, 0), [a, a])
         == CrossLedger(a, b, [a, a], [Landing(0, [a, a])])
    ensures WriteAt([], Run(0, [a, a])) == [a, a]
  {
    var nothing: seq<Byte> := [];
    assert nothing + [a, a] == [a, a];
  }

  lemma DeliverLow(a: Byte, b: Byte)
    ensures Reachable(LowThere(a, b))
  {
    hide Reachable, LedgerLand, CrossLedger, WriteAt;
    BeginCross(a, b);
    StartCross(CrossBegun(a, b), a, b, 0);
    LandLow(a, b);
    var w6, w7 := CrossSent(CrossBegun(a, b), a, b, 0), LowThere(a, b);
    assert w7.ledgers == w6.ledgers[FH := w7.ledgers[FH]];
    assert w7.files == w6.files[PATH := [a, a]];
    assert Mount.Others(w6, FH, PATH) == {};
    ReachStep(w6, DeliverRun(Fuse), w7);
  }

  function HighThere(a: Byte, b: Byte): World {
    CrossWorld([a, b], Crossing(a, b), true, CrossFlush(a, b, 2, None),
               CrossLedger(a, b, [a, a, b], [Landing(0, [a, a]), Landing(0, [b])]))
  }

  lemma LandHigh(a: Byte, b: Byte)
    ensures LedgerLand(CrossLedger(a, b, [a, a], [Landing(0, [a, a])]), CrossFlight(a, b, 1), [b])
         == CrossLedger(a, b, [a, a, b], [Landing(0, [a, a]), Landing(0, [b])])
    ensures WriteAt([a, a], Run(1, [b])) == [a, b]
  {
    assert [a, a] + [b] == [a, a, b];
  }

  lemma DeliverHigh(a: Byte, b: Byte)
    ensures Reachable(HighThere(a, b))
  {
    hide Reachable, LedgerLand, CrossLedger, WriteAt;
    DeliverLow(a, b);
    StartCross(LowThere(a, b), a, b, 1);
    LandHigh(a, b);
    var w8, w9 := CrossSent(LowThere(a, b), a, b, 1), HighThere(a, b);
    assert w9.ledgers == w8.ledgers[FH := w9.ledgers[FH]];
    assert w9.files == w8.files[PATH := [a, b]];
    assert Mount.Others(w8, FH, PATH) == {};
    ReachStep(w8, DeliverRun(Fuse), w9);
  }

  /** Byte 1 was last written by `"aa"` and the covering chunk that starts highest is `"b"`. */
  lemma CrossingReorders(a: Byte, b: Byte)
    requires a != b
    ensures !SentInOrder(Crossing(a, b), CrossFlight(a, b, 2))
  {
    SnapshotOfCrossing(a, b);
    var rs := [Run(1, [b]), Run(0, [a, a])];
    assert Crossing(a, b)[0..2] == Crossing(a, b) && Payload(Crossing(a, b)[2..]) == [];
    assert rs[..1] == [Run(1, [b])];
    assert ByteOf(rs, 1) == Some(a) && TopRun([Run(1, [b])], 1) == Some(Run(1, [b]));
  }

  function CrossAcked(a: Byte, b: Byte): World {
    WorldOf([a, b], OneSession(false), OpenFile(First(false), 0), None, false, Idle, Idle,
            Ledger([], Crossing(a, b), [Acked, Acked], 0, false, true, [Batch(0, 2, [a, a, b], [a, a, b])],
                   [Landing(0, [a, a]), Landing(0, [b])]))
  }

  lemma AckCross(a: Byte, b: Byte)
    requires a != b
    ensures Reachable(CrossAcked(a, b))
  {
    hide Reachable, SentInOrder;
    DeliverHigh(a, b);
    var w9, w10 := HighThere(a, b), CrossAcked(a, b);
    CrossingReorders(a, b);
    assert AckFates(CrossFlight(a, b, 2), 0, 2) == [Acked, Acked];
    assert w9.bufs - {FH} == w10.bufs;
    assert w10.ledgers[FH] == LedgerAck(w9.ledgers[FH], w9.fuse.flight, 2);
    assert w10.ledgers == w9.ledgers[FH := w10.ledgers[FH]];
    ReachStep(w9, AckFlush(Fuse), w10);
  }

  /** The sort by offset can let an older write win: two overlapping writes of which the later starts
      lower are flushed together, close() is answered Ok, every write is acked, and the file is not
      what was written. */
  lemma {:induction false} SortedFlushWitness(a: Byte, b: Byte) returns (w: World)
    requires a != b
    ensures Reachable(w) && Allowed(w, Answer) && w.fuse.fh == FH && Seen(w, FH) && FH !in w.intruded
    ensures !w.open[FH].target.entry.append && FlushReply(w.fuse.err, FH in w.errors).None?
    ensures !w.ledgers[FH].ordered && w.ledgers[FH].reported == 0 && !MarkPending(w, FH)
    ensures SafeSinceLastError(w.ledgers[FH])
    ensures FileOf(w, FH) == [a, b] && WrittenThrough(w.ledgers[FH]) == [a, a]
  {
    hide Reachable, Snapshot, DataOf;
    AckCross(a, b);
    w := CrossAcked(a, b).(fuse := Answering(FH, None));
    ReachStep(CrossAcked(a, b), SawEmpty(FH), w);
    SnapshotOfCrossing(a, b);
    TwoWrites([], Run(1, [b]), Run(0, [a, a]));
    WriteBack(b, a);
  }

  lemma WriteBack(b: Byte, a: Byte)
    ensures WriteAt(WriteAt([], Run(1, [b])), Run(0, [a, a])) == [a, a]
  {
    var f := WriteAt([], Run(1, [b]));
    assert |f| == 2;
    assert f[..0] == [];
  }

  // ----- a send that failed and was repeated -----

  function RetryFlush(b: Byte, batch: nat, sent: nat, rpc: Option<Entry>): Phase {
    Flushing(FH, First(false), Flight(batch, 0, 1, [Run(0, [b])], sent), rpc)
  }

  function RetryLedger(b: Byte, fates: seq<Fate>, batches: seq<Batch>, landings: seq<Landing>): Ledger {
    Ledger([], [ChunkOf(0, b)], fates, 0, true, true, batches, landings)
  }

  function RetryWorld(b: Byte, file: Content, sending: bool, fuse: Phase, l: Ledger): World {
    WorldOf(file, OneSession(false), OpenFile(First(false), 0), Some(HandleBuf([ChunkOf(0, b)], sending)), false,
            fuse, Idle, l)
  }

  function RetryBatch(b: Byte, landed: seq<Byte>): Batch {
    Batch(0, 1, [b], landed)
  }

  function FirstTry(b: Byte): World {
    RetryWorld(b, [], true, RetryFlush(b, 0, 0, None), RetryLedger(b, [], [RetryBatch(b, [])], []))
  }

  /** The send has failed: the chunk is still queued, the guard is free, and no error is set. */
  function TryFailed(b: Byte): World {
    RetryWorld(b, [], false, Idle, RetryLedger(b, [], [RetryBatch(b, [])], [Landing(0, [])]))
  }

  lemma BeginRetryLedger(b: Byte, l: Ledger)
    requires l.fates == [] && l.accepted == [ChunkOf(0, b)]
    ensures LedgerBegin(l, [ChunkOf(0, b)]) == l.(batches := l.batches + [RetryBatch(b, [])])
    ensures FlightOf(l, [ChunkOf(0, b)]) == Flight(|l.batches|, 0, 1, [Run(0, [b])], 0)
  {
    hide Snapshot, DataOf, Payload;
    OneChunk(0, b);
  }

  lemma TryOnce(b: Byte)
    ensures Reachable(FirstTry(b))
  {
    hide Reachable, LedgerBegin, FlightOf;
    WriteOne(false, b);
    var w2, w4 := JustWritten(false, b), FirstTry(b);
    var w3 := w2.(fuse := Ready(FH, First(false)));
    ReachStep(w2, Resolve(Fuse, FH), w3);
    BeginRetryLedger(b, w3.ledgers[FH]);
    assert w3.ledgers[FH].batches + [RetryBatch(b, [])] == w4.ledgers[FH].batches;
    assert w4.bufs == w3.bufs[FH := w3.bufs[FH].(sending := true)];
    assert w4.ledgers == w3.ledgers[FH := w4.ledgers[FH]];
    ReachStep(w3, BeginFlush(Fuse), w4);
  }

  lemma FailOnce(b: Byte)
    ensures Reachable(TryFailed(b))
  {
    hide Reachable;
    TryOnce(b);
    var w4, w5 := FirstTry(b), TryFailed(b);
    var nothing: seq<Byte> := [];
    assert [b][..0] == nothing && nothing + nothing == nothing;
    assert w5.ledgers[FH].batches == w4.ledgers[FH].batches[0 := RetryBatch(b, nothing + nothing)];
    assert w5.ledgers[FH] == LedgerLand(w4.ledgers[FH], w4.fuse.flight, nothing);
    assert w5.ledgers == w4.ledgers[FH := w5.ledgers[FH]];
    assert w5.bufs == w4.bufs[FH := w4.bufs[FH].(sending := false)];
    ReachStep(w4, FailRun(Fuse, 0), w5);
  }

  function SecondTry(b: Byte): World {
    RetryWorld(b, [], true, RetryFlush(b, 1, 0, None),
               RetryLedger(b, [], [RetryBatch(b, []), RetryBatch(b, [])], [Landing(0, [])]))
  }

  lemma TryTwice(b: Byte)
    ensures Reachable(SecondTry(b))
  {
    hide Reachable, LedgerBegin, FlightOf;
    FailOnce(b);
    var w5, w7 := TryFailed(b), SecondTry(b);
    var w6 := w5.(fuse := Ready(FH, First(false)));
    ReachStep(w5, Resolve(Fuse, FH), w6);
    BeginRetryLedger(b, w6.ledgers[FH]);
    assert [RetryBatch(b, [])] + [RetryBatch(b, [])] == w7.ledgers[FH].batches;
    assert w7.bufs == w6.bufs[FH := w6.bufs[FH].(sending := true)];
    assert w7.ledgers == w6.ledgers[FH := w7.ledgers[FH]];
    ReachStep(w6, BeginFlush(Fuse), w7);
  }

  function RetryLanded(b: Byte): World {
    RetryWorld(b, [b], true, RetryFlush(b, 1, 1, None),
               RetryLedger(b, [], [RetryBatch(b, []), RetryBatch(b, [b])], [Landing(0, []), Landing(1, [b])]))
  }

  lemma DeliverRetry(b: Byte)
    ensures Reachable(RetryLanded(b))
  {
    hide Reachable, WriteAt;
    TryTwice(b);
    var w7, w9 := SecondTry(b), RetryLanded(b);
    var w8 := w7.(fuse := RetryFlush(b, 1, 0, Some(Entry(PATH, false))));
    ReachStep(w7, StartRpc(Fuse, 0), w8);
    WriteOver([], b);
    var nothing: seq<Byte> := [];
    assert nothing + [b] == [b];
    assert w9.ledgers[FH].batches == w8.ledgers[FH].batches[1 := RetryBatch(b, nothing + [b])];
    assert w9.ledgers[FH] == LedgerLand(w8.ledgers[FH], w8.fuse.flight, [b]);
    assert w9.ledgers == w8.ledgers[FH := w9.ledgers[FH]];
    assert w9.files == w8.files[PATH := [b]];
    assert Mount.Others(w8, FH, PATH) == {};
    ReachStep(w8, DeliverRun(Fuse), w9);
  }

  function RetryAcked(b: Byte): World {
    WorldOf([b], OneSession(false), OpenFile(First(false), 0), None, false, Idle, Idle,
            RetryLedger(b, [Acked], [RetryBatch(b, []), RetryBatch(b, [b])], [Landing(0, []), Landing(1, [b])]))
  }

  lemma RetryWasInOrder(b: Byte)
    ensures SentInOrder([ChunkOf(0, b)], Flight(1, 0, 1, [Run(0, [b])], 1))
  {
    assert [ChunkOf(0, b)][0..1] == [ChunkOf(0, b)];
    OneChunk(0, b);
    AscendingIsSafe([Run(0, [b])]);
  }

  lemma AckRetry(b: Byte)
    ensures Reachable(RetryAcked(b))
  {
    hide Reachable, SentInOrder;
    DeliverRetry(b);
    var w9, w10 := RetryLanded(b), RetryAcked(b);
    RetryWasInOrder(b);
    assert AckFates(w9.fuse.flight, 0, 1) == [Acked];
    assert w9.bufs - {FH} == w10.bufs;
    assert w10.ledgers[FH] == LedgerAck(w9.ledgers[FH], w9.fuse.flight, 1);
    assert w10.ledgers == w9.ledgers[FH := w10.ledgers[FH]];
    ReachStep(w9, AckFlush(Fuse), w10);
  }

  /** A failed send of a positioned handle leaves no error behind: the chunk is kept, sent again and
      acked, and close() is answered Ok with the file as written. */
  lemma {:induction false} RetriedSendWitness(b: Byte) returns (failed: World, w: World)
    ensures Reachable(failed) && FH in failed.bufs && failed.bufs[FH] == HandleBuf([ChunkOf(0, b)], false)
    ensures failed.errors == {} && failed.fuse.Idle? && PATH in failed.files && failed.files[PATH] == []
    ensures FH in failed.ledgers && |failed.ledgers[FH].batches| == 1
    ensures Reachable(w) && Allowed(w, Answer) && w.fuse == Answering(FH, None) && Seen(w, FH)
    ensures FlushReply(w.fuse.err, FH in w.errors).None? && |w.ledgers[FH].batches| == 2
    ensures FileOf(w, FH) == [b]
  {
    hide Reachable;
    FailOnce(b);
    failed := TryFailed(b);
    AckRetry(b);
    w := RetryAcked(b).(fuse := Answering(FH, None));
    ReachStep(RetryAcked(b), SawEmpty(FH), w);
  }
}
