/** What an O_APPEND file holds once every accepted byte has been acked. */
module AppendWhole {
  import opened FileModel
  import opened Coalescing
  import opened Buffers
  import opened HandleProtocol
  import opened WriteThrough
  import opened AppendOnce
  import opened HandleRuns

  predicate InRange(accepted: seq<Chunk>, bs: seq<Batch>) {
    forall b :: 0 <= b < |bs| ==> bs[b].from + bs[b].count <= |accepted|
  }

  /** Batch after batch, each batch's chunks in stable offset order. */
  function InOffsetOrder(accepted: seq<Chunk>, bs: seq<Batch>): seq<Byte>
    requires InRange(accepted, bs)
  {
    if bs == [] then []
    else
      var b := bs[|bs| - 1];
      InOffsetOrder(accepted, bs[..|bs| - 1]) + SortedBytes(accepted, b.from, b.count)
  }

  function Stretch(accepted: seq<Chunk>, from: nat, until: nat): seq<Byte>
    requires from <= until <= |accepted|
  {
    DataOf(Payload(accepted[from..until]))
  }

  /** Batch after batch, each batch's chunks as they were accepted. */
  function InArrivalOrder(accepted: seq<Chunk>, bs: seq<Batch>): seq<Byte>
    requires InRange(accepted, bs)
  {
    if bs == [] then []
    else
      var b := bs[|bs| - 1];
      InArrivalOrder(accepted, bs[..|bs| - 1]) + Stretch(accepted, b.from, b.from + b.count)
  }

  // ----- every batch landed whole -----

  lemma {:induction false} DataLength(rs: seq<Run>)
    ensures |DataOf(rs)| == Bytes(rs)
  {
    if rs != [] {
      DataLength(rs[..|rs| - 1]);
    }
  }

  lemma NoDataNoBytes(accepted: seq<Chunk>, from: nat, count: nat)
    requires from + count <= |accepted|
    requires forall i :: from <= i < from + count ==> accepted[i].run.data == []
    ensures SortedBytes(accepted, from, count) == [] && Stretch(accepted, from, from + count) == []
  {
    var rs := Payload(accepted[from..from + count]);
    BytesZero(rs);
    SortKeepsBytes(rs);
    DataLength(rs);
    DataLength(SortByOffset(rs));
  }

  /** A batch with bytes has an acked chunk, and that chunk is in no other batch. */
  lemma BatchLandsWhole(l: Ledger, b: nat)
    requires LogOk(l) && AckedAreWhole(l) && BatchBytes(l) && Disjoint(l.batches)
    requires SafeSinceLastError(l) && l.reported == 0 && b < |l.batches|
    ensures l.batches[b].landed == l.batches[b].whole
  {
    hide SortedBytes, Share;
    var n := l.batches[b];
    assert BatchOk(|l.accepted|, |l.fates|, n) && BatchIs(l.accepted, n);
    if i :| n.from <= i < n.from + n.count && l.accepted[i].run.data != [] {
      var k :| 0 <= k < |l.batches| && LandedWhole(l.batches[k], i);
      assert Sends(l.batches[k], i) && Sends(n, i);
    } else {
      NoDataNoBytes(l.accepted, n.from, n.count);
    }
  }

  lemma {:induction false} LandedInOffsetOrder(accepted: seq<Chunk>, bs: seq<Batch>)
    requires forall b :: 0 <= b < |bs| ==> BatchIs(accepted, bs[b]) && bs[b].landed == bs[b].whole
    ensures InRange(accepted, bs) && Landed(bs) == InOffsetOrder(accepted, bs)
  {
    hide SortedBytes;
    if bs != [] {
      LandedInOffsetOrder(accepted, bs[..|bs| - 1]);
      assert BatchIs(accepted, bs[|bs| - 1]);
    }
  }

  /** With every chunk that has bytes acked, batch after batch landed in stable offset order. */
  lemma {:induction false} AllAckedLandWhole(l: Ledger)
    requires LogOk(l) && AckedAreWhole(l) && BatchBytes(l) && Disjoint(l.batches)
    requires SafeSinceLastError(l) && l.reported == 0
    ensures InRange(l.accepted, l.batches) && Landed(l.batches) == InOffsetOrder(l.accepted, l.batches)
  {
    hide LogOk, AckedAreWhole, Disjoint, SafeSinceLastError, Landed, BatchIs;
    forall b | 0 <= b < |l.batches|
      ensures l.batches[b].landed == l.batches[b].whole
    {
      BatchLandsWhole(l, b);
    }
    LandedInOffsetOrder(l.accepted, l.batches);
  }

  // ----- nothing is left out between the batches -----

  /** Every batch ends where the next begins or before it. */
  predicate InSequence(bs: seq<Batch>) {
    forall b, c :: 0 <= b < c < |bs| ==> bs[b].from + bs[b].count <= bs[c].from
  }

  lemma DisjointInSequence(l: Ledger)
    requires LogOk(l) && Disjoint(l.batches)
    ensures InSequence(l.batches)
  {
    hide Share;
    forall b, c | 0 <= b < c < |l.batches|
      ensures l.batches[b].from + l.batches[b].count <= l.batches[c].from
    {
      assert BatchOk(|l.accepted|, |l.fates|, l.batches[c]);
      assert Sends(l.batches[c], l.batches[c].from);
      assert !Sends(l.batches[b], l.batches[c].from);
    }
  }

  /** Every chunk with bytes is in a batch. */
  ghost predicate AllSent(accepted: seq<Chunk>, bs: seq<Batch>) {
    forall i :: 0 <= i < |accepted| && accepted[i].run.data != [] ==> InSome(bs, i)
  }

  ghost predicate InSome(bs: seq<Batch>, i: nat) {
    exists k :: 0 <= k < |bs| && Sends(bs[k], i)
  }

  lemma AllAckedAllSent(l: Ledger)
    requires AckedAreWhole(l) && SafeSinceLastError(l) && l.reported == 0
    ensures AllSent(l.accepted, l.batches)
  {
    forall i | 0 <= i < |l.accepted| && l.accepted[i].run.data != []
      ensures InSome(l.batches, i)
    {
      var k :| 0 <= k < |l.batches| && LandedWhole(l.batches[k], i);
      assert Sends(l.batches[k], i);
    }
  }

  lemma StretchJoins(accepted: seq<Chunk>, from: nat, mid: nat, until: nat)
    requires from <= mid <= until <= |accepted|
    ensures Stretch(accepted, from, until) == Stretch(accepted, from, mid) + Stretch(accepted, mid, until)
  {
    hide DataOf, Payload;
    var cs := accepted[from..until];
    assert cs[..mid - from] == accepted[from..mid] && cs[mid - from..] == accepted[mid..until];
    PayloadSplit(cs, mid - from);
    DataOfConcat(Payload(accepted[from..mid]), Payload(accepted[mid..until]));
  }

  function EndOf(bs: seq<Batch>, k: nat): nat
    requires k <= |bs|
  {
    if k == 0 then 0 else bs[k - 1].from + bs[k - 1].count
  }

  /** No chunk between the end of batch `k - 1` and `until` has bytes. */
  lemma GapIsEmpty(accepted: seq<Chunk>, bs: seq<Batch>, k: nat, until: nat)
    requires InRange(accepted, bs) && InSequence(bs) && AllSent(accepted, bs) && k <= |bs|
    requires EndOf(bs, k) <= until <= |accepted| && (k < |bs| ==> until == bs[k].from)
    ensures Stretch(accepted, EndOf(bs, k), until) == []
  {
    hide Stretch;
    var from := EndOf(bs, k);
    forall i | from <= i < until
      ensures accepted[i].run.data == []
    {
      if InSome(bs, i) {
        var j :| 0 <= j < |bs| && Sends(bs[j], i);
        assert false;
      }
    }
    NoDataNoBytes(accepted, from, until - from);
  }

  lemma {:induction false} BatchesTile(accepted: seq<Chunk>, bs: seq<Batch>, k: nat)
    requires InRange(accepted, bs) && InSequence(bs) && AllSent(accepted, bs) && k <= |bs|
    ensures EndOf(bs, k) <= |accepted|
    ensures InArrivalOrder(accepted, bs[..k]) == Stretch(accepted, 0, EndOf(bs, k))
  {
    hide Stretch, AllSent;
    if k == 0 {
      assert Stretch(accepted, 0, 0) == [] by {
        NoDataNoBytes(accepted, 0, 0);
      }
    } else {
      var b := bs[k - 1];
      BatchesTile(accepted, bs, k - 1);
      assert bs[..k][..k - 1] == bs[..k - 1];
      assert EndOf(bs, k - 1) <= b.from;
      GapIsEmpty(accepted, bs, k - 1, b.from);
      StretchJoins(accepted, 0, EndOf(bs, k - 1), b.from);
      StretchJoins(accepted, 0, b.from, b.from + b.count);
    }
  }

  /** The batches hold every accepted byte. */
  lemma {:induction false} BatchesHoldAll(accepted: seq<Chunk>, bs: seq<Batch>)
    requires InRange(accepted, bs) && InSequence(bs) && AllSent(accepted, bs)
    ensures InArrivalOrder(accepted, bs) == DataOf(Payload(accepted))
  {
    hide Stretch, AllSent, InArrivalOrder;
    BatchesTile(accepted, bs, |bs|);
    assert bs[..|bs|] == bs;
    GapIsEmpty(accepted, bs, |bs|, |accepted|);
    StretchJoins(accepted, 0, EndOf(bs, |bs|), |accepted|);
    WholeStretch(accepted);
  }

  lemma WholeStretch(accepted: seq<Chunk>)
    ensures Stretch(accepted, 0, |accepted|) == DataOf(Payload(accepted))
  {
    assert accepted[0..|accepted|] == accepted;
  }

  // ----- what the sort does to a batch -----

  lemma {:induction false} InsertKeepsData(r: Run, ts: seq<Run>)
    ensures multiset(DataOf(Insert(r, ts))) == multiset(DataOf(ts)) + multiset(r.data)
  {
    if ts == [] || ts[|ts| - 1].offset <= r.offset {
      assert (ts + [r])[..|ts|] == ts;
    } else {
      var ins := Insert(r, ts[..|ts| - 1]);
      InsertKeepsData(r, ts[..|ts| - 1]);
      assert (ins + [ts[|ts| - 1]])[..|ins|] == ins;
    }
  }

  lemma {:induction false} SortKeepsData(rs: seq<Run>)
    ensures multiset(DataOf(SortByOffset(rs))) == multiset(DataOf(rs))
  {
    if rs != [] {
      SortKeepsData(rs[..|rs| - 1]);
      InsertKeepsData(rs[|rs| - 1], SortByOffset(rs[..|rs| - 1]));
    }
  }

  lemma BatchKeepsData(accepted: seq<Chunk>, from: nat, count: nat)
    requires from + count <= |accepted|
    ensures multiset(SortedBytes(accepted, from, count)) == multiset(Stretch(accepted, from, from + count))
  {
    hide SortByOffset, DataOf, Payload;
    SortKeepsData(Payload(accepted[from..from + count]));
  }

  /** The two orders hold the same bytes, each as often. */
  lemma {:induction false} SameBytes(accepted: seq<Chunk>, bs: seq<Batch>)
    requires InRange(accepted, bs)
    ensures multiset(InOffsetOrder(accepted, bs)) == multiset(InArrivalOrder(accepted, bs))
  {
    hide SortedBytes, Stretch;
    if bs != [] {
      var b := bs[|bs| - 1];
      SameBytes(accepted, bs[..|bs| - 1]);
      BatchKeepsData(accepted, b.from, b.count);
    }
  }

  /** Every chunk starts no lower than those accepted before it. */
  ghost predicate OffsetsAscend(accepted: seq<Chunk>) {
    forall i, j :: 0 <= i < j < |accepted| ==> accepted[i].run.offset <= accepted[j].run.offset
  }

  lemma {:induction false} AscendingStays(rs: seq<Run>)
    requires forall i, j :: 0 <= i < j < |rs| ==> rs[i].offset <= rs[j].offset
    ensures SortByOffset(rs) == rs
  {
    if rs != [] {
      AscendingStays(rs[..|rs| - 1]);
    }
  }

  lemma BatchStays(accepted: seq<Chunk>, from: nat, count: nat)
    requires from + count <= |accepted| && OffsetsAscend(accepted)
    ensures SortedBytes(accepted, from, count) == Stretch(accepted, from, from + count)
  {
    hide SortByOffset, DataOf;
    AscendingStays(Payload(accepted[from..from + count]));
  }

  lemma {:induction false} SameOrder(accepted: seq<Chunk>, bs: seq<Batch>)
    requires InRange(accepted, bs) && OffsetsAscend(accepted)
    ensures InOffsetOrder(accepted, bs) == InArrivalOrder(accepted, bs)
  {
    hide SortedBytes, Stretch, OffsetsAscend;
    if bs != [] {
      var b := bs[|bs| - 1];
      SameOrder(accepted, bs[..|bs| - 1]);
      BatchStays(accepted, b.from, b.count);
    }
  }

  // ----- what an Ok means -----

  /** The file is the original and every accepted byte once, batch after batch in stable offset
      order. */
  ghost predicate AppendedOnce(file: Content, l: Ledger) {
    && InRange(l.accepted, l.batches) && Disjoint(l.batches) && AllSent(l.accepted, l.batches)
    && file == l.base + InOffsetOrder(l.accepted, l.batches)
    && multiset(file) == multiset(l.base) + multiset(DataOf(Payload(l.accepted)))
    && (OffsetsAscend(l.accepted) ==> file == l.base + DataOf(Payload(l.accepted)))
  }

  lemma {:induction false} AllAckedAppendedOnce(file: Content, l: Ledger)
    requires LogOk(l) && AckedAreWhole(l) && BatchBytes(l) && Disjoint(l.batches)
    requires SafeSinceLastError(l) && l.reported == 0 && file == l.base + Landed(l.batches)
    ensures AppendedOnce(file, l)
  {
    hide LogOk, AckedAreWhole, BatchBytes, Disjoint, SafeSinceLastError, Landed, InOffsetOrder, InArrivalOrder, DataOf,
      Payload, OffsetsAscend, InSequence, AllSent, InRange;
    AllAckedLandWhole(l);
    AllAckedAllSent(l);
    DisjointInSequence(l);
    BatchesHoldAll(l.accepted, l.batches);
    SameBytes(l.accepted, l.batches);
    if OffsetsAscend(l.accepted) {
      SameOrder(l.accepted, l.batches);
    }
  }

  lemma InvAppends(h: Handle)
    requires Inv(h) && h.append
    ensures LogOk(h.led) && AckedAreWhole(h.led) && BatchBytes(h.led)
    ensures h.alone && h.led.undisturbed ==> h.file == h.led.base + Landed(h.led.batches)
  {
    hide Conserved, Roles, InBounds, Loud, NoneLost, WritesThrough, BatchBytes, Joined, Landed, Flights, Closed, LogOk,
      AckedAreWhole;
  }

  /** An Ok on an O_APPEND handle that no reopen disturbed, no error having been reported and no mark
      pending: the file is the original and every accepted byte once. */
  lemma {:induction false} OkMeansAppended(h: Handle)
    requires Inv(h) && Drains(h) && ApartWhileQuiet(h) && h.append && h.alone && h.led.undisturbed
    requires h.fuse.Replying? && FlushReply(h.fuse.err, h.sticky).None?
    requires h.led.reported == 0 && !(h.bg.Marking? && h.bg.lost.Some?)
    ensures AppendedOnce(h.file, h.led)
  {
    hide Inv, Drains, FlushReply, SafeSinceLastError, LossUnreported, LogOk, AckedAreWhole, BatchBytes, Disjoint,
      Landed, AppendedOnce, IsLost;
    OkReplyIsExact(h);
    QuietLossless(h);
    InvAppends(h);
    AllAckedAppendedOnce(h.file, h.led);
  }

  lemma QuietLossless(h: Handle)
    requires Inv(h) && Quiet(h)
    ensures !LossUnreported(h.led)
  {
    hide Conserved, Roles, InBounds, Loud, WritesThrough, AppendsLogged, InBatchOrder, BatchBytes;
  }
}
