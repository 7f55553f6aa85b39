/** What `begin_flush` makes of a handle's chunks before they are sent: a stable sort by
    offset, then a merge of neighbours that touch. */
module Coalescing {
  import opened FileModel

  // ----- the stable sort -----

  ghost predicate Sorted(rs: seq<Run>) {
    forall p, q :: 0 <= p < q < |rs| ==> rs[p].offset <= rs[q].offset
  }

  /** `r` goes after every run that starts no later than it does. */
  function Insert(r: Run, ts: seq<Run>): seq<Run> {
    if ts == [] || ts[|ts| - 1].offset <= r.offset then ts + [r]
    else Insert(r, ts[..|ts| - 1]) + [ts[|ts| - 1]]
  }

  function SortByOffset(rs: seq<Run>): seq<Run> {
    if rs == [] then [] else Insert(rs[|rs| - 1], SortByOffset(rs[..|rs| - 1]))
  }

  /** The runs of `rs` starting at `offset`, in the order they stand in `rs`. */
  function StartingAt(rs: seq<Run>, offset: nat): seq<Run> {
    if rs == [] then []
    else
      StartingAt(rs[..|rs| - 1], offset)
      + (if rs[|rs| - 1].offset == offset then [rs[|rs| - 1]] else [])
  }

  lemma SortedSnoc(ts: seq<Run>, z: Run)
    requires Sorted(ts) && forall t :: t in ts ==> t.offset <= z.offset
    ensures Sorted(ts + [z])
  {
  }

  lemma {:induction false} InsertPermutes(r: Run, ts: seq<Run>)
    ensures multiset(Insert(r, ts)) == multiset(ts) + multiset{r}
  {
    if ts != [] && r.offset < ts[|ts| - 1].offset {
      InsertPermutes(r, ts[..|ts| - 1]);
      assert ts == ts[..|ts| - 1] + [ts[|ts| - 1]];
    }
  }

  lemma {:induction false} InsertSorts(r: Run, ts: seq<Run>)
    requires Sorted(ts)
    ensures Sorted(Insert(r, ts))
  {
    if ts == [] || ts[|ts| - 1].offset <= r.offset {
      SortedSnoc(ts, r);
    } else {
      var init, z := ts[..|ts| - 1], ts[|ts| - 1];
      var ins := Insert(r, init);
      InsertSorts(r, init);
      InsertPermutes(r, init);
      forall t | t in ins
        ensures t.offset <= z.offset
      {
        assert t in multiset(ins);
        assert t in init || t == r;
      }
      SortedSnoc(ins, z);
    }
  }

  lemma StartingAtSnoc(ts: seq<Run>, z: Run, o: nat)
    ensures StartingAt(ts + [z], o) == StartingAt(ts, o) + (if z.offset == o then [z] else [])
  {
    assert (ts + [z])[..|ts|] == ts;
  }

  lemma {:induction false} InsertIsStable(r: Run, ts: seq<Run>, o: nat)
    ensures StartingAt(Insert(r, ts), o) == StartingAt(ts, o) + (if r.offset == o then [r] else [])
  {
    hide StartingAt;
    if ts == [] || ts[|ts| - 1].offset <= r.offset {
      StartingAtSnoc(ts, r, o);
    } else {
      var init, z := ts[..|ts| - 1], ts[|ts| - 1];
      InsertIsStable(r, init, o);
      StartingAtSnoc(Insert(r, init), z, o);
      StartingAtSnoc(init, z, o);
      assert ts == init + [z];
    }
  }

  lemma {:induction false} SortPermutes(rs: seq<Run>)
    ensures Sorted(SortByOffset(rs)) && multiset(SortByOffset(rs)) == multiset(rs)
  {
    hide Insert;
    if rs != [] {
      var init := rs[..|rs| - 1];
      SortPermutes(init);
      InsertSorts(rs[|rs| - 1], SortByOffset(init));
      InsertPermutes(rs[|rs| - 1], SortByOffset(init));
      assert rs == init + [rs[|rs| - 1]];
      assert multiset(rs) == multiset(init) + multiset{rs[|rs| - 1]};
    }
  }

  lemma {:induction false} SortKeepsTies(rs: seq<Run>, o: nat)
    ensures StartingAt(SortByOffset(rs), o) == StartingAt(rs, o)
  {
    if rs != [] {
      var init := rs[..|rs| - 1];
      SortKeepsTies(init, o);
      InsertIsStable(rs[|rs| - 1], SortByOffset(init), o);
    }
  }

  /** The result is ordered by offset, is a permutation, and keeps the arrival order of runs
      that start at the same offset: the three together fix it. */
  lemma {:induction false} SortIsStable(rs: seq<Run>)
    ensures Sorted(SortByOffset(rs)) && multiset(SortByOffset(rs)) == multiset(rs)
    ensures forall o: nat :: StartingAt(SortByOffset(rs), o) == StartingAt(rs, o)
  {
    SortPermutes(rs);
    forall o: nat {
      SortKeepsTies(rs, o);
    }
  }

  // ----- which run wins a byte -----

  /** The last run of `rs` covering position `i`. */
  function LastRun(rs: seq<Run>, i: nat): (o: Option<Run>)
    ensures o.Some? ==> o.value.Covers(i) && o.value in rs
  {
    if rs == [] then None
    else if rs[|rs| - 1].Covers(i) then Some(rs[|rs| - 1])
    else LastRun(rs[..|rs| - 1], i)
  }

  /** Of the runs covering `i` the one starting highest, the latest of several. */
  function TopRun(rs: seq<Run>, i: nat): (o: Option<Run>)
    ensures o.Some? ==> o.value.Covers(i) && o.value in rs
  {
    if rs == [] then None
    else
      var t, r := TopRun(rs[..|rs| - 1], i), rs[|rs| - 1];
      if r.Covers(i) && (t.None? || t.value.offset <= r.offset) then Some(r) else t
  }

  function ByteIn(o: Option<Run>, i: nat): Option<Byte>
    requires o.Some? ==> o.value.Covers(i)
  {
    if o.None? then None else Some(o.value.data[i - o.value.offset])
  }

  lemma {:induction false} ByteOfIsLastRun(rs: seq<Run>, i: nat)
    ensures ByteOf(rs, i) == ByteIn(LastRun(rs, i), i)
  {
    if rs != [] {
      ByteOfIsLastRun(rs[..|rs| - 1], i);
    }
  }

  lemma {:induction false} InsertWins(r: Run, ts: seq<Run>, i: nat)
    requires Sorted(ts)
    ensures LastRun(Insert(r, ts), i) ==
            var t := LastRun(ts, i);
            if r.Covers(i) && (t.None? || t.value.offset <= r.offset) then Some(r) else t
  {
    if ts == [] || ts[|ts| - 1].offset <= r.offset {
      assert (ts + [r])[..|ts|] == ts;
    } else {
      var init, z := ts[..|ts| - 1], ts[|ts| - 1];
      var ins := Insert(r, init);
      InsertWins(r, init, i);
      assert (ins + [z])[..|ins|] == ins;
    }
  }

  lemma {:induction false} SortedWinner(rs: seq<Run>, i: nat)
    ensures LastRun(SortByOffset(rs), i) == TopRun(rs, i)
  {
    if rs != [] {
      SortedWinner(rs[..|rs| - 1], i);
      SortPermutes(rs[..|rs| - 1]);
      InsertWins(rs[|rs| - 1], SortByOffset(rs[..|rs| - 1]), i);
    }
  }

  // ----- the merge -----

  /** `r` joins the last run if it starts where that ends, else stands on its own. */
  function Join(m: seq<Run>, r: Run): seq<Run> {
    if m != [] && m[|m| - 1].End() == r.offset
    then m[..|m| - 1] + [Run(m[|m| - 1].offset, m[|m| - 1].data + r.data)]
    else m + [r]
  }

  function Merged(rs: seq<Run>): seq<Run> {
    if rs == [] then [] else Join(Merged(rs[..|rs| - 1]), rs[|rs| - 1])
  }

  lemma JoinByte(m: seq<Run>, r: Run, i: nat)
    ensures ByteOf(Join(m, r), i) == if r.Covers(i) then Some(r.data[i - r.offset]) else ByteOf(m, i)
  {
    var j := Join(m, r);
    assert j[..|j| - 1] == if |j| == |m| then m[..|m| - 1] else m;
  }

  lemma JoinData(m: seq<Run>, r: Run)
    ensures DataOf(Join(m, r)) == DataOf(m) + r.data && Bytes(Join(m, r)) == Bytes(m) + |r.data|
  {
    var j := Join(m, r);
    assert j[..|j| - 1] == if |j| == |m| then m[..|m| - 1] else m;
    if |j| == |m| {
      assert DataOf(j) == DataOf(m[..|m| - 1]) + (m[|m| - 1].data + r.data);
    }
  }

  lemma {:induction false} MergedByte(rs: seq<Run>, i: nat)
    ensures ByteOf(Merged(rs), i) == ByteOf(rs, i)
  {
    if rs != [] {
      MergedByte(rs[..|rs| - 1], i);
      JoinByte(Merged(rs[..|rs| - 1]), rs[|rs| - 1], i);
    }
  }

  lemma {:induction false} MergedData(rs: seq<Run>)
    ensures DataOf(Merged(rs)) == DataOf(rs) && Bytes(Merged(rs)) == Bytes(rs)
  {
    if rs != [] {
      MergedData(rs[..|rs| - 1]);
      JoinData(Merged(rs[..|rs| - 1]), rs[|rs| - 1]);
    }
  }

  ghost predicate Apart(m: seq<Run>) {
    forall k :: 0 <= k < |m| - 1 ==> m[k].End() != m[k + 1].offset
  }

  lemma JoinShape(m: seq<Run>, r: Run)
    requires Sorted(m) && Apart(m) && (m != [] ==> m[|m| - 1].offset <= r.offset)
    ensures var j := Join(m, r); Sorted(j) && Apart(j) && j != [] && j[|j| - 1].offset <= r.offset
  {
  }

  /** Offsets never go down and no two neighbours touch. */
  lemma {:induction false} MergedShape(rs: seq<Run>)
    requires Sorted(rs)
    ensures Sorted(Merged(rs)) && Apart(Merged(rs)) && (rs != [] <==> Merged(rs) != [])
    ensures rs != [] ==> Merged(rs)[|Merged(rs)| - 1].offset <= rs[|rs| - 1].offset
  {
    if rs != [] {
      MergedShape(rs[..|rs| - 1]);
      JoinShape(Merged(rs[..|rs| - 1]), rs[|rs| - 1]);
    }
  }

  /** `begin_flush`'s loop over the sorted pairs. */
  method CoalesceLoop(pairs: seq<Run>) returns (merged: seq<Run>)
    ensures merged == Merged(pairs)
  {
    merged := [];
    for n := 0 to |pairs|
      invariant merged == Merged(pairs[..n])
    {
      var r := pairs[n];
      assert pairs[..n + 1][..n] == pairs[..n];
      if merged != [] && merged[|merged| - 1].End() == r.offset {
        var last := merged[|merged| - 1];
        merged := merged[..|merged| - 1] + [Run(last.offset, last.data + r.data)];
      } else {
        merged := merged + [r];
      }
    }
    assert pairs[..|pairs|] == pairs;
  }

  // ----- both together -----

  /** The runs a flush transmits for the chunks `rs`. */
  function Snapshot(rs: seq<Run>): seq<Run> {
    Merged(SortByOffset(rs))
  }

  /** At every byte the last chunk to arrive agrees with the covering chunk that starts
      highest (the latest of several): what makes reordering by offset harmless. */
  ghost predicate OrderSafe(rs: seq<Run>) {
    forall i: nat :: ByteOf(rs, i) == ByteIn(TopRun(rs, i), i)
  }

  /** As `OrderSafe`, at the bytes that no chunk of `later` covers. */
  ghost predicate OrderSafeUnder(rs: seq<Run>, later: seq<Run>) {
    forall i: nat :: ByteOf(later, i).None? ==> ByteOf(rs, i) == ByteIn(TopRun(rs, i), i)
  }

  predicate Overlap(a: Run, b: Run) {
    Max(a.offset, b.offset) < a.End() && Max(a.offset, b.offset) < b.End()
  }

  /** Overlapping chunks arrived in nondecreasing offset order. */
  ghost predicate OverlapsAscend(rs: seq<Run>) {
    forall p, q :: 0 <= p < q < |rs| && Overlap(rs[p], rs[q]) ==> rs[p].offset <= rs[q].offset
  }

  lemma SnapshotBytes(rs: seq<Run>)
    ensures forall i: nat :: ByteOf(Snapshot(rs), i) == ByteIn(TopRun(rs, i), i)
  {
    forall i: nat
      ensures ByteOf(Snapshot(rs), i) == ByteIn(TopRun(rs, i), i)
    {
      MergedByte(SortByOffset(rs), i);
      ByteOfIsLastRun(SortByOffset(rs), i);
      SortedWinner(rs, i);
    }
  }

  lemma {:induction false} SnapshotData(rs: seq<Run>)
    ensures DataOf(Snapshot(rs)) == DataOf(SortByOffset(rs))
  {
    MergedData(SortByOffset(rs));
  }

  /** Coalescing preserves meaning: the merged runs in order do to any file what the sorted
      chunks in order do, carry as many bytes as the chunks, start at nondecreasing offsets,
      and no two neighbours touch. */
  lemma {:induction false} SnapshotMeansSortedChunks(f: Content, rs: seq<Run>)
    ensures ApplyAll(f, Snapshot(rs)) == ApplyAll(f, SortByOffset(rs))
    ensures Bytes(Snapshot(rs)) == Bytes(rs)
    ensures Sorted(Snapshot(rs)) && Apart(Snapshot(rs)) && (rs != [] <==> Snapshot(rs) != [])
  {
    var sorted := SortByOffset(rs);
    forall i: nat
      ensures ByteOf(Merged(sorted), i) == ByteOf(sorted, i)
    {
      MergedByte(sorted, i);
    }
    SameBytesSameFile(f, Merged(sorted), sorted);
    MergedData(sorted);
    SortPermutes(rs);
    MergedShape(sorted);
    SortKeepsBytes(rs);
  }

  lemma {:induction false} InsertBytes(r: Run, ts: seq<Run>)
    ensures Bytes(Insert(r, ts)) == Bytes(ts) + |r.data|
    ensures |Insert(r, ts)| == |ts| + 1
  {
    if ts == [] || ts[|ts| - 1].offset <= r.offset {
      assert (ts + [r])[..|ts|] == ts;
    } else {
      var ins := Insert(r, ts[..|ts| - 1]);
      InsertBytes(r, ts[..|ts| - 1]);
      assert (ins + [ts[|ts| - 1]])[..|ins|] == ins;
    }
  }

  lemma {:induction false} SortKeepsBytes(rs: seq<Run>)
    ensures Bytes(SortByOffset(rs)) == Bytes(rs)
    ensures |SortByOffset(rs)| == |rs|
  {
    if rs != [] {
      SortKeepsBytes(rs[..|rs| - 1]);
      InsertBytes(rs[|rs| - 1], SortByOffset(rs[..|rs| - 1]));
    }
  }

  /** The snapshot covers exactly the positions its chunks cover. */
  lemma {:induction false} SnapshotCovers(rs: seq<Run>, i: nat)
    ensures ByteOf(Snapshot(rs), i).Some? == ByteOf(rs, i).Some?
  {
    SnapshotBytes(rs);
    TopIffLast(rs, i);
    ByteOfIsLastRun(rs, i);
  }

  lemma {:induction false} TopIffLast(rs: seq<Run>, i: nat)
    ensures TopRun(rs, i).Some? == LastRun(rs, i).Some?
  {
    if rs != [] {
      TopIffLast(rs[..|rs| - 1], i);
    }
  }

  /** A complete flush leaves on `f` what the writes in arrival order would leave if and only
      if the chunks are order-safe, whatever `f` holds. */
  lemma {:induction false} FlushIsExact(f: Content, rs: seq<Run>)
    ensures ApplyAll(f, Snapshot(rs)) == ApplyAll(f, rs) <==> OrderSafe(rs)
  {
    SnapshotBytes(rs);
    if OrderSafe(rs) {
      SameBytesSameFile(f, Snapshot(rs), rs);
    }
    if ApplyAll(f, Snapshot(rs)) == ApplyAll(f, rs) {
      forall i: nat
        ensures ByteOf(Snapshot(rs), i).Some? == ByteOf(rs, i).Some?
      {
        SnapshotCovers(rs, i);
      }
      SameFileSameBytes(f, Snapshot(rs), rs);
    }
  }

  /** Once the snapshot of `sent` is in the file, `later` alone leaves what `sent` and then `later`
      would leave if and only if `sent` is order-safe where `later` does not cover it. */
  lemma {:induction false} AckIsExact(f: Content, sent: seq<Run>, later: seq<Run>)
    requires ApplyAll(f, Snapshot(sent)) == f
    ensures ApplyAll(f, later) == ApplyAll(f, sent + later) <==> OrderSafeUnder(sent, later)
  {
    var sorted := Snapshot(sent);
    SnapshotBytes(sent);
    ApplyAllConcat(f, sorted, later);
    hide Snapshot, TopRun, ApplyAll, ByteOf;
    forall i: nat
      ensures ByteOf(sorted + later, i) == if ByteOf(later, i).Some? then ByteOf(later, i) else ByteOf(sorted, i)
      ensures ByteOf(sent + later, i) == if ByteOf(later, i).Some? then ByteOf(later, i) else ByteOf(sent, i)
      ensures ByteOf(sorted, i).Some? == ByteOf(sent, i).Some?
    {
      ByteOfConcat(sorted, later, i);
      ByteOfConcat(sent, later, i);
      SnapshotCovers(sent, i);
    }
    if OrderSafeUnder(sent, later) {
      SameBytesSameFile(f, sorted + later, sent + later);
    }
    if ApplyAll(f, later) == ApplyAll(f, sent + later) {
      SameFileSameBytes(f, sorted + later, sent + later);
    }
  }

  lemma SafeIsSafeUnder(rs: seq<Run>, later: seq<Run>)
    requires OrderSafe(rs)
    ensures OrderSafeUnder(rs, later)
  {
  }

  lemma SafeUnderMore(rs: seq<Run>, later: seq<Run>, r: Run)
    requires OrderSafeUnder(rs, later)
    ensures OrderSafeUnder(rs, later + [r])
  {
    hide TopRun;
    forall i: nat | ByteOf(later + [r], i).None?
      ensures ByteOf(later, i).None?
    {
      ByteOfConcat(later, [r], i);
    }
  }

  lemma {:induction false} AscendingIsSafe(rs: seq<Run>)
    requires OverlapsAscend(rs)
    ensures OrderSafe(rs)
  {
    forall i: nat
      ensures ByteOf(rs, i) == ByteIn(TopRun(rs, i), i)
    {
      AscendingTopIsLast(rs, i);
      ByteOfIsLastRun(rs, i);
    }
  }

  lemma {:induction false} AscendingTopIsLast(rs: seq<Run>, i: nat)
    requires OverlapsAscend(rs)
    ensures TopRun(rs, i) == LastRun(rs, i)
  {
    if rs != [] {
      var init := rs[..|rs| - 1];
      AscendingTopIsLast(init, i);
      var t := TopRun(init, i);
      if t.Some? && rs[|rs| - 1].Covers(i) {
        var p :| 0 <= p < |init| && init[p] == t.value;
        assert Overlap(rs[p], rs[|rs| - 1]);
      }
    }
  }

  /** `(2, "BB")` then `(0, "AAAA")`: the sort lets the older write win bytes 2 and 3. */
  lemma {:induction false} OverlapWitness(a: Byte, b: Byte)
    requires a != b
    ensures var rs := [Run(2, [b, b]), Run(0, [a, a, a, a])];
            ApplyAll([], rs) == [a, a, a, a] && ApplyAll([], Snapshot(rs)) == [a, a, b, b]
  {
    var x, y := Run(2, [b, b]), Run(0, [a, a, a, a]);
    WitnessSnapshot(x, y);
    hide Snapshot, WriteAt, ApplyAll;
    TwoWrites([], y, x);
    TwoWrites([], x, y);
    WitnessWrites(x, y, a, b);
  }

  lemma WitnessWrites(x: Run, y: Run, a: Byte, b: Byte)
    requires x == Run(2, [b, b]) && y == Run(0, [a, a, a, a])
    ensures WriteAt(WriteAt([], y), x) == [a, a, b, b]
    ensures WriteAt(WriteAt([], x), y) == [a, a, a, a]
  {
    WitnessFirst(x, y, a, b);
    WitnessSecond(x, y, a, b);
  }

  lemma WitnessFirst(x: Run, y: Run, a: Byte, b: Byte)
    requires x == Run(2, [b, b]) && y == Run(0, [a, a, a, a])
    ensures WriteAt(WriteAt([], y), x) == [a, a, b, b]
  {
    assert WriteAt([], y) == [a, a, a, a];
    assert [a, a, a, a][..2] == [a, a];
  }

  lemma WitnessSecond(x: Run, y: Run, a: Byte, b: Byte)
    requires x == Run(2, [b, b]) && y == Run(0, [a, a, a, a])
    ensures WriteAt(WriteAt([], x), y) == [a, a, a, a]
  {
    var f := WriteAt([], x);
    assert |f| == 4;
    assert f[..0] == [];
  }

  lemma TwoWrites(f: Content, x: Run, y: Run)
    ensures ApplyAll(f, [x, y]) == WriteAt(WriteAt(f, x), y)
  {
    assert [x, y][..1] == [x];
    assert ApplyAll(f, [x]) == WriteAt(f, x);
  }

  lemma WitnessSnapshot(x: Run, y: Run)
    requires y.offset < x.offset && y.End() != x.offset
    ensures Snapshot([x, y]) == [y, x]
  {
    assert [x, y][..1] == [x];
    assert SortByOffset([x]) == Insert(x, []) == [x];
    assert Insert(y, [x]) == Insert(y, []) + [x] == [y, x];
    assert [y, x][..1] == [y];
    assert Merged([y]) == Join([], y) == [y];
    assert Merged([y, x]) == Join([y], x) == [y, x];
  }
}
