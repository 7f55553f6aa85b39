/** The keep-until-acked write buffer: one queue and one send guard per open handle. */
module Buffers {
  import opened FileModel
  import opened Coalescing

  type Fh = nat

  /** A deferred write and when it was queued. */
  datatype Chunk = Chunk(run: Run, queuedAt: nat)

  datatype HandleBuf = HandleBuf(chunks: seq<Chunk>, sending: bool) {
    function Size(): nat {
      Bytes(Payload(chunks))
    }
  }

  type Table = map<Fh, HandleBuf>

  const USIZE_MAX: nat := 0xFFFF_FFFF_FFFF_FFFF

  function Payload(cs: seq<Chunk>): (rs: seq<Run>)
    ensures |rs| == |cs|
  {
    seq(|cs|, i requires 0 <= i < |cs| => cs[i].run)
  }

  function SaturatingSub(a: nat, b: nat): nat {
    if a < b then 0 else a - b
  }

  // ----- one handle's entry -----

  function Entry(q: Table, h: Fh): Option<HandleBuf> {
    if h in q then Some(q[h]) else None
  }

  function Put(q: Table, h: Fh, e: Option<HandleBuf>): Table {
    match e
    case None => q - {h}
    case Some(hb) => q[h := hb]
  }

  function Queued(e: Option<HandleBuf>): seq<Chunk> {
    if e.None? then [] else e.value.chunks
  }

  function Enqueued(e: Option<HandleBuf>, c: Chunk): HandleBuf {
    if e.None? then HandleBuf([c], false) else e.value.(chunks := e.value.chunks + [c])
  }

  predicate CanBegin(e: Option<HandleBuf>) {
    e.Some? && !e.value.sending && e.value.chunks != []
  }

  function AckedEntry(e: Option<HandleBuf>, sentCount: nat): Option<HandleBuf> {
    if e.None? || |e.value.chunks| <= sentCount then None
    else Some(HandleBuf(e.value.chunks[sentCount..], false))
  }

  function FailedEntry(e: Option<HandleBuf>): Option<HandleBuf> {
    if e.None? then None else Some(e.value.(sending := false))
  }

  // ----- bytes held by the whole table -----

  function SizeOf(e: Option<HandleBuf>): nat {
    if e.None? then 0 else e.value.Size()
  }

  ghost function KeyBytes(keys: set<Fh>, q: Table): nat
    requires keys <= q.Keys
  {
    if keys == {} then 0
    else
      var h :| h in keys;
      q[h].Size() + KeyBytes(keys - {h}, q)
  }

  ghost function TableBytes(q: Table): nat {
    KeyBytes(q.Keys, q)
  }

  lemma {:induction false} KeyBytesSplit(keys: set<Fh>, q: Table, h: Fh)
    requires keys <= q.Keys && h in keys
    ensures KeyBytes(keys, q) == q[h].Size() + KeyBytes(keys - {h}, q)
  {
    var x :| x in keys && KeyBytes(keys, q) == q[x].Size() + KeyBytes(keys - {x}, q);
    if x != h {
      KeyBytesSplit(keys - {x}, q, h);
      KeyBytesSplit(keys - {h}, q, x);
      assert keys - {x} - {h} == keys - {h} - {x};
    }
  }

  lemma {:induction false} KeyBytesFrame(keys: set<Fh>, q: Table, r: Table)
    requires keys <= q.Keys && keys <= r.Keys
    requires forall h :: h in keys ==> q[h] == r[h]
    ensures KeyBytes(keys, q) == KeyBytes(keys, r)
  {
    if keys != {} {
      var h :| h in keys && KeyBytes(keys, q) == q[h].Size() + KeyBytes(keys - {h}, q);
      KeyBytesFrame(keys - {h}, q, r);
      KeyBytesSplit(keys, r, h);
    }
  }

  lemma WithoutBytes(q: Table, h: Fh)
    ensures TableBytes(q) == SizeOf(Entry(q, h)) + TableBytes(q - {h})
  {
    if h in q {
      KeyBytesSplit(q.Keys, q, h);
      assert (q - {h}).Keys == q.Keys - {h};
      KeyBytesFrame(q.Keys - {h}, q, q - {h});
    } else {
      assert q - {h} == q;
    }
  }

  /** Replacing one entry changes the total by exactly that entry's change. */
  lemma PutBytes(q: Table, h: Fh, e: Option<HandleBuf>)
    ensures TableBytes(Put(q, h, e)) + SizeOf(Entry(q, h)) == TableBytes(q) + SizeOf(e)
  {
    WithoutBytes(q, h);
    WithoutBytes(Put(q, h, e), h);
    assert Put(q, h, e) - {h} == q - {h};
  }

  lemma EnqueuedBytes(e: Option<HandleBuf>, c: Chunk)
    ensures Enqueued(e, c).Size() == SizeOf(e) + |c.run.data|
  {
    var cs := Queued(e);
    assert Enqueued(e, c).chunks == cs + [c];
    assert Payload(cs + [c]) == Payload(cs) + [c.run];
    BytesConcat(Payload(cs), [c.run]);
    assert Bytes([c.run]) == Bytes([]) + |c.run.data|;
    assert e.None? ==> Payload(cs) == [];
  }

  lemma AckedBytes(e: Option<HandleBuf>, n: nat)
    ensures var take := if n < |Queued(e)| then n else |Queued(e)|;
            SizeOf(AckedEntry(e, n)) + Bytes(Payload(Queued(e)[..take])) == SizeOf(e)
  {
    if e.Some? {
      var cs := e.value.chunks;
      var take := if n < |cs| then n else |cs|;
      assert Payload(cs[..take]) + Payload(cs[take..]) == Payload(cs);
      BytesConcat(Payload(cs[..take]), Payload(cs[take..]));
      assert take == |cs| ==> Payload(cs[take..]) == [];
    } else {
      assert Payload([]) == [];
    }
  }

  // ----- the advice `push` gives -----

  datatype PushDecision = Buffered | FlushThis(h: Fh) | FlushOther(h: Fh) | Reject

  datatype Caps = Caps(perHandle: nat, total: nat, hard: nat)

  function CapsOf(maxPerHandle: nat, maxTotal: nat): Caps {
    Caps(maxPerHandle, maxTotal, if 2 * maxTotal <= USIZE_MAX then 2 * maxTotal else USIZE_MAX)
  }

  ghost predicate Biggest(q: Table, h: Fh) {
    h in q && forall x :: x in q ==> q[x].Size() <= q[h].Size()
  }

  /** What `push` may answer for `c` on handle `h` and the table it leaves; which of several
      largest handles is named depends on hash order. */
  ghost predicate PushAnswers(caps: Caps, q: Table, h: Fh, c: Chunk, d: PushDecision, q': Table) {
    if TableBytes(q) + |c.run.data| > caps.hard then d == Reject && q' == q
    else
      && q' == Put(q, h, Some(Enqueued(Entry(q, h), c)))
      && (if q'[h].Size() >= caps.perHandle then d == FlushThis(h)
          else if TableBytes(q') >= caps.total then d.FlushOther? && Biggest(q', d.h)
          else d == Buffered)
  }

  /** A push is refused exactly when it would exceed the hard cap, and then changes nothing; otherwise
      the chunk is queued last, and no other handle's queue changes. */
  lemma {:induction false} PushQueuesLast(caps: Caps, q: Table, h: Fh, c: Chunk, d: PushDecision, q': Table)
    requires PushAnswers(caps, q, h, c, d, q')
    ensures d == Reject <==> TableBytes(q) + |c.run.data| > caps.hard
    ensures Queued(Entry(q', h)) == Queued(Entry(q, h)) + (if d == Reject then [] else [c])
    ensures q' - {h} == q - {h}
  {
    hide TableBytes, Biggest;
    assert Queued(Entry(q, h)) + [] == Queued(Entry(q, h));
  }

  class WriteBuffer {
    var perHandle: Table
    var totalBytes: nat
    const caps: Caps
    const window: nat
    /** The latest instant seen; `Instant` never runs backwards. */
    ghost var clock: nat

    ghost predicate Valid()
      reads this
    {
      && totalBytes == TableBytes(perHandle) <= caps.hard
      && forall h :: h in perHandle ==> perHandle[h].chunks != [] && InArrivalOrder(perHandle[h].chunks, clock)
    }

    constructor (maxPerHandle: nat, maxTotal: nat, windowMs: nat)
      ensures Valid() && perHandle == map[] && caps == CapsOf(maxPerHandle, maxTotal) && window == windowMs
      ensures caps.perHandle == maxPerHandle && caps.total == maxTotal
      ensures caps.hard == if 2 * maxTotal <= 0xFFFF_FFFF_FFFF_FFFF then 2 * maxTotal else 0xFFFF_FFFF_FFFF_FFFF
    {
      perHandle, totalBytes, clock := map[], 0, 0;
      caps, window := CapsOf(maxPerHandle, maxTotal), windowMs;
    }

    method Push(h: Fh, offset: nat, data: seq<Byte>, now: nat) returns (d: PushDecision)
      requires Valid() && clock <= now
      modifies this`perHandle, this`totalBytes, this`clock
      ensures Valid() && clock == now
      ensures PushAnswers(caps, old(perHandle), h, Chunk(Run(offset, data), now), d, perHandle)
    {
      hide Bytes, Payload, KeyBytes;
      var n := |data|;
      clock := now;
      if totalBytes + n > caps.hard {
        return Reject;
      }
      var c := Chunk(Run(offset, data), now);
      var entry := Enqueued(Entry(perHandle, h), c);
      EnqueuedBytes(Entry(perHandle, h), c);
      PutBytes(perHandle, h, Some(entry));
      EnqueuedInOrder(Queued(Entry(perHandle, h)), c, now);
      perHandle := perHandle[h := entry];
      totalBytes := totalBytes + n;
      if entry.Size() >= caps.perHandle {
        return FlushThis(h);
      }
      if totalBytes >= caps.total {
        var biggest := MaxByBytes(h);
        return FlushOther(biggest);
      }
      return Buffered;
    }

    method MaxByBytes(start: Fh) returns (biggest: Fh)
      requires start in perHandle
      ensures Biggest(perHandle, biggest)
    {
      biggest := start;
      var rest := perHandle.Keys;
      while rest != {}
        invariant rest <= perHandle.Keys && biggest in perHandle
        invariant forall x :: x in perHandle && x !in rest ==> perHandle[x].Size() <= perHandle[biggest].Size()
        decreases |rest|
      {
        var x :| x in rest;
        rest := rest - {x};
        if perHandle[biggest].Size() <= perHandle[x].Size() {
          biggest := x;
        }
      }
    }

    /** Nothing is removed: the batch is a snapshot of every queued chunk. */
    method BeginFlush(h: Fh) returns (batch: Option<FlushBatch>)
      requires Valid()
      modifies this`perHandle
      ensures Valid()
      ensures batch.Some? == CanBegin(Entry(old(perHandle), h))
      ensures batch.None? ==> perHandle == old(perHandle)
      ensures batch.Some? ==>
                && perHandle == old(perHandle)[h := old(perHandle)[h].(sending := true)]
                && batch.value.sentCount == |old(perHandle)[h].chunks|
                && batch.value.runs == Snapshot(Payload(old(perHandle)[h].chunks))
    {
      if !CanBegin(Entry(perHandle, h)) {
        return None;
      }
      var hb := perHandle[h];
      PutBytes(perHandle, h, Some(hb.(sending := true)));
      perHandle := perHandle[h := hb.(sending := true)];
      var merged := CoalesceLoop(SortByOffset(Payload(hb.chunks)));
      return Some(FlushBatch(merged, |hb.chunks|));
    }

    /** The first `sentCount` chunks go, later ones stay in order, and the total falls by
        exactly what they held. */
    method AckFlush(h: Fh, sentCount: nat)
      requires Valid()
      modifies this`perHandle, this`totalBytes
      ensures Valid()
      ensures perHandle == Put(old(perHandle), h, AckedEntry(Entry(old(perHandle), h), sentCount))
      ensures perHandle - {h} == old(perHandle) - {h} && (h in perHandle ==> !perHandle[h].sending)
      ensures var cs := Queued(Entry(old(perHandle), h));
              Queued(Entry(perHandle, h)) == if sentCount < |cs| then cs[sentCount..] else []
    {
      hide Bytes, Payload, KeyBytes;
      if h in perHandle {
        var hb := perHandle[h];
        var take := if sentCount < |hb.chunks| then sentCount else |hb.chunks|;
        var removed := Bytes(Payload(hb.chunks[..take]));
        AckedBytes(Some(hb), sentCount);
        TailInOrder(hb.chunks, take, clock);
        PutBytes(perHandle, h, AckedEntry(Some(hb), sentCount));
        totalBytes := SaturatingSub(totalBytes, removed);
        perHandle := perHandle[h := HandleBuf(hb.chunks[take..], false)];
        if hb.chunks[take..] == [] {
          perHandle := perHandle - {h};
        }
        assert perHandle == Put(old(perHandle), h, AckedEntry(Some(hb), sentCount));
      } else {
        assert perHandle - {h} == perHandle;
      }
    }

    method FailFlush(h: Fh)
      requires Valid()
      modifies this`perHandle
      ensures Valid()
      ensures perHandle == Put(old(perHandle), h, FailedEntry(Entry(old(perHandle), h)))
      ensures perHandle - {h} == old(perHandle) - {h} && (h in perHandle ==> !perHandle[h].sending)
      ensures Queued(Entry(perHandle, h)) == Queued(Entry(old(perHandle), h))
    {
      PutBytes(perHandle, h, FailedEntry(Entry(perHandle, h)));
      if h in perHandle {
        perHandle := perHandle[h := perHandle[h].(sending := false)];
      } else {
        assert perHandle - {h} == perHandle;
      }
    }

    method DropHandle(h: Fh) returns (freed: nat)
      requires Valid()
      modifies this`perHandle, this`totalBytes
      ensures Valid()
      ensures perHandle == old(perHandle) - {h} && freed == SizeOf(Entry(old(perHandle), h))
    {
      PutBytes(perHandle, h, None);
      if h in perHandle {
        freed := perHandle[h].Size();
        perHandle := perHandle - {h};
        totalBytes := SaturatingSub(totalBytes, freed);
      } else {
        assert perHandle - {h} == perHandle;
        freed := 0;
      }
    }

    /** Looks at each queue's first chunk only, and yet reports exactly the handles holding
        some chunk that old, each once. */
    method OlderThan(deadline: nat, now: nat) returns (hs: seq<Fh>)
      requires Valid() && clock <= now
      ensures forall h :: h in hs <==> h in perHandle && HoldsAged(perHandle[h].chunks, deadline, now)
      ensures forall p, q :: 0 <= p < q < |hs| ==> hs[p] != hs[q]
    {
      hs := [];
      var rest := perHandle.Keys;
      while rest != {}
        invariant rest <= perHandle.Keys
        invariant forall h :: h in hs <==>
                                h in perHandle && h !in rest && HoldsAged(perHandle[h].chunks, deadline, now)
        invariant forall p, q :: 0 <= p < q < |hs| ==> hs[p] != hs[q]
        decreases |rest|
      {
        var h :| h in rest;
        rest := rest - {h};
        var chunks := perHandle[h].chunks;
        if chunks != [] && SaturatingSub(now, chunks[0].queuedAt) >= deadline {
          assert HoldsAged(chunks, deadline, now);
          hs := hs + [h];
        } else {
          assert !HoldsAged(chunks, deadline, now);
        }
      }
    }

    method HasBuffered(h: Fh) returns (b: bool)
      requires Valid()
      ensures b <==> Queued(Entry(perHandle, h)) != []
      ensures b <==> h in perHandle
    {
      b := h in perHandle && perHandle[h].chunks != [];
    }
  }

  /** Queued at times that never go down, none of them in the future. */
  ghost predicate InArrivalOrder(cs: seq<Chunk>, now: nat) {
    && (forall i, j :: 0 <= i < j < |cs| ==> cs[i].queuedAt <= cs[j].queuedAt)
    && (forall i :: 0 <= i < |cs| ==> cs[i].queuedAt <= now)
  }

  lemma EnqueuedInOrder(cs: seq<Chunk>, c: Chunk, now: nat)
    requires InArrivalOrder(cs, now) && c.queuedAt == now
    ensures InArrivalOrder(cs + [c], now)
  {
  }

  lemma TailInOrder(cs: seq<Chunk>, n: nat, now: nat)
    requires InArrivalOrder(cs, now) && n <= |cs|
    ensures InArrivalOrder(cs[n..], now)
  {
  }

  ghost predicate HoldsAged(cs: seq<Chunk>, deadline: nat, now: nat) {
    exists i :: 0 <= i < |cs| && SaturatingSub(now, cs[i].queuedAt) >= deadline
  }

  /** A snapshot to transmit and how many chunks it stands for. */
  datatype FlushBatch = FlushBatch(runs: seq<Run>, sentCount: nat)

  // ----- laws over several calls -----

  /** Calls on the buffer that change a queue or a guard; a push is one that was not refused. */
  datatype Call =
    | Pushed(h: Fh, c: Chunk)
    | Began(h: Fh)
    | AckedCall(h: Fh, sentCount: nat)
    | FailedCall(h: Fh)
    | DroppedCall(h: Fh)

  function Called(q: Table, call: Call): Table {
    match call
    case Pushed(h, c) => Put(q, h, Some(Enqueued(Entry(q, h), c)))
    case Began(h) => if CanBegin(Entry(q, h)) then q[h := q[h].(sending := true)] else q
    case AckedCall(h, n) => Put(q, h, AckedEntry(Entry(q, h), n))
    case FailedCall(h) => Put(q, h, FailedEntry(Entry(q, h)))
    case DroppedCall(h) => q - {h}
  }

  function AfterCalls(q: Table, calls: seq<Call>): Table {
    if calls == [] then q else Called(AfterCalls(q, calls[..|calls| - 1]), calls[|calls| - 1])
  }

  /** What the calls pushed to `h`, in order. */
  function PushedTo(calls: seq<Call>, h: Fh): seq<Chunk> {
    if calls == [] then []
    else
      var call := calls[|calls| - 1];
      PushedTo(calls[..|calls| - 1], h) + if call.Pushed? && call.h == h then [call.c] else []
  }

  predicate Removes(call: Call, h: Fh) {
    (call.AckedCall? || call.DroppedCall?) && call.h == h
  }

  lemma CallKeeps(q: Table, call: Call, h: Fh)
    requires !Removes(call, h)
    ensures Queued(Entry(Called(q, call), h))
         == Queued(Entry(q, h)) + if call.Pushed? && call.h == h then [call.c] else []
  {
  }

  lemma {:induction false} CallsKeep(q: Table, calls: seq<Call>, h: Fh)
    requires forall i :: 0 <= i < |calls| ==> !Removes(calls[i], h)
    ensures Queued(Entry(AfterCalls(q, calls), h)) == Queued(Entry(q, h)) + PushedTo(calls, h)
  {
    if calls != [] {
      var init := calls[..|calls| - 1];
      CallsKeep(q, init, h);
      CallKeeps(AfterCalls(q, init), calls[|calls| - 1], h);
    }
  }

  /** Between the beginning of a flush and its ack, any calls on any handles that neither drop nor ack
      this one: the ack removes exactly what the flush saw, and what was pushed since stays in order. */
  lemma {:induction false} AckRemovesExactlyTheSnapshot(q: Table, h: Fh, calls: seq<Call>)
    requires CanBegin(Entry(q, h)) && forall i :: 0 <= i < |calls| ==> !Removes(calls[i], h)
    ensures var during := AfterCalls(Called(q, Began(h)), calls);
            Queued(Entry(Called(during, AckedCall(h, |q[h].chunks|)), h)) == PushedTo(calls, h)
  {
    var began := Called(q, Began(h));
    CallsKeep(began, calls, h);
    var chunks := Queued(Entry(AfterCalls(began, calls), h));
    assert chunks[|q[h].chunks|..] == PushedTo(calls, h);
  }

  /** Every handle and the whole table are below their soft caps. */
  ghost predicate BelowCaps(caps: Caps, q: Table) {
    && TableBytes(q) < caps.total
    && forall h :: h in q ==> q[h].Size() < caps.perHandle
  }

  /** The table once the handle named by `d` has been drained. */
  function AfterAdvice(q: Table, d: PushDecision): Table {
    if d.FlushThis? || d.FlushOther? then q - {d.h} else q
  }

  /** One write with its advised flush restores the soft limits, and is not refused if it is
      no larger than the soft global cap (bytes held together always fit the address space). */
  lemma {:induction false} AdviceRestoresCaps(maxPerHandle: nat, maxTotal: nat, q: Table, h: Fh, c: Chunk,
                                              d: PushDecision, q': Table)
    requires BelowCaps(CapsOf(maxPerHandle, maxTotal), q)
    requires PushAnswers(CapsOf(maxPerHandle, maxTotal), q, h, c, d, q')
    ensures BelowCaps(CapsOf(maxPerHandle, maxTotal), AfterAdvice(q', d))
    ensures |c.run.data| <= maxTotal && TableBytes(q) + |c.run.data| <= USIZE_MAX ==> d != Reject
  {
    if d != Reject {
      var e := Enqueued(Entry(q, h), c);
      EnqueuedBytes(Entry(q, h), c);
      PutBytes(q, h, Some(e));
      if d.FlushThis? || d.FlushOther? {
        WithoutBytes(q', d.h);
      }
    }
  }

  /** A session of writes, each followed by the flush it was advised, as the tables between
      them, the decisions and the writes. */
  ghost predicate AdvisedRun(caps: Caps, qs: seq<Table>, ws: seq<(Fh, Chunk)>, ds: seq<PushDecision>) {
    && |qs| == |ws| + 1 && |ds| == |ws|
    && qs[0] == map[]
    && forall k :: 0 <= k < |ws| ==> AdvisedStep(caps, qs[k], ws[k], ds[k], qs[k + 1])
  }

  ghost predicate AdvisedStep(caps: Caps, q: Table, w: (Fh, Chunk), d: PushDecision, q': Table) {
    exists mid :: PushAnswers(caps, q, w.0, w.1, d, mid) && q' == AfterAdvice(mid, d)
  }

  /** Soft limits are self-restoring: over every session, after each write the total and every
      handle are below their caps and no write up to the soft global cap was ever refused. */
  lemma {:induction false} SoftLimitsRestoreThemselves(
    maxPerHandle: nat, maxTotal: nat, qs: seq<Table>, ws: seq<(Fh, Chunk)>, ds: seq<PushDecision>, k: nat)
    requires 0 < maxPerHandle && 0 < maxTotal
    requires AdvisedRun(CapsOf(maxPerHandle, maxTotal), qs, ws, ds)
    requires k <= |ws|
    ensures BelowCaps(CapsOf(maxPerHandle, maxTotal), qs[k])
    ensures k < |ws| && |ws[k].1.run.data| <= maxTotal && TableBytes(qs[k]) + |ws[k].1.run.data| <= USIZE_MAX
            ==> ds[k] != Reject
  {
    var caps := CapsOf(maxPerHandle, maxTotal);
    if k > 0 {
      SoftLimitsRestoreThemselves(maxPerHandle, maxTotal, qs, ws, ds, k - 1);
      assert AdvisedStep(caps, qs[k - 1], ws[k - 1], ds[k - 1], qs[k]);
      var mid :| PushAnswers(caps, qs[k - 1], ws[k - 1].0, ws[k - 1].1, ds[k - 1], mid)
                 && qs[k] == AfterAdvice(mid, ds[k - 1]);
      AdviceRestoresCaps(maxPerHandle, maxTotal, qs[k - 1], ws[k - 1].0, ws[k - 1].1, ds[k - 1], mid);
    }
    if k < |ws| {
      assert AdvisedStep(caps, qs[k], ws[k], ds[k], qs[k + 1]);
      var mid :| PushAnswers(caps, qs[k], ws[k].0, ws[k].1, ds[k], mid) && qs[k + 1] == AfterAdvice(mid, ds[k]);
      AdviceRestoresCaps(maxPerHandle, maxTotal, qs[k], ws[k].0, ws[k].1, ds[k], mid);
    }
  }
}
