/** File contents under POSIX `write()` and what a list of positioned writes means. */
module FileModel {

  newtype Byte = b: int | 0 <= b < 256

  type Content = seq<Byte>

  type Path = string

  /** A positioned write: `data` is to be stored from `offset` on. */
  datatype Run = Run(offset: nat, data: seq<Byte>) {
    predicate Covers(i: nat) {
      offset <= i < offset + |data|
    }

    function End(): nat {
      offset + |data|
    }
  }

  datatype Option<+T> = None | Some(value: T)

  function Max(a: nat, b: nat): nat {
    if a < b then b else a
  }

  /** A positioned write: a hole is filled with zeros, an empty write changes nothing. */
  function WriteAt(f: Content, r: Run): Content {
    if r.data == [] then f
    else
      var padded := if |f| < r.offset then f + seq(r.offset - |f|, _ => 0) else f;
      padded[..r.offset] + r.data + (if r.End() < |padded| then padded[r.End()..] else [])
  }

  /** Its length and every one of its bytes. */
  lemma {:induction false} WriteAtDenotes(f: Content, r: Run)
    ensures |WriteAt(f, r)| == if r.data == [] then |f| else Max(|f|, r.End())
    ensures forall i: nat :: i < |WriteAt(f, r)| ==>
                               WriteAt(f, r)[i] ==
                               if r.Covers(i) then r.data[i - r.offset] else if i < |f| then f[i] else 0
  {
  }

  /** The writes of `rs` one after another. */
  function ApplyAll(f: Content, rs: seq<Run>): Content {
    if rs == [] then f
    else WriteAt(ApplyAll(f, rs[..|rs| - 1]), rs[|rs| - 1])
  }

  /** The byte the last run covering position `i` puts there. */
  function ByteOf(rs: seq<Run>, i: nat): Option<Byte> {
    if rs == [] then None
    else
      var r := rs[|rs| - 1];
      if r.Covers(i) then Some(r.data[i - r.offset]) else ByteOf(rs[..|rs| - 1], i)
  }

  /** One past the last byte written by `rs`. */
  function Extent(rs: seq<Run>): nat {
    if rs == [] then 0
    else
      var e := Extent(rs[..|rs| - 1]);
      if rs[|rs| - 1].data == [] then e else Max(e, rs[|rs| - 1].End())
  }

  function Bytes(rs: seq<Run>): nat {
    if rs == [] then 0 else Bytes(rs[..|rs| - 1]) + |rs[|rs| - 1].data|
  }

  /** The payloads of `rs` strung together, which is what they leave on an O_APPEND file. */
  function DataOf(rs: seq<Run>): seq<Byte> {
    if rs == [] then [] else DataOf(rs[..|rs| - 1]) + rs[|rs| - 1].data
  }

  lemma {:induction false} CoveredBelowExtent(rs: seq<Run>, i: nat)
    ensures ByteOf(rs, i).Some? ==> i < Extent(rs)
  {
    if rs != [] {
      CoveredBelowExtent(rs[..|rs| - 1], i);
    }
  }

  /** The byte at `i` once the writes of `rs` have gone over `f`. */
  function Overlay(f: Content, rs: seq<Run>, i: nat): Byte {
    match ByteOf(rs, i)
    case Some(b) => b
    case None => if i < |f| then f[i] else 0
  }

  /** Length and every byte of `ApplyAll`, read off `Extent` and `ByteOf`. */
  lemma {:induction false} ApplyAllDenotes(f: Content, rs: seq<Run>)
    ensures |ApplyAll(f, rs)| == Max(|f|, Extent(rs))
    ensures forall i: nat :: i < |ApplyAll(f, rs)| ==> ApplyAll(f, rs)[i] == Overlay(f, rs, i)
  {
    if rs != [] {
      var init := rs[..|rs| - 1];
      ApplyAllDenotes(f, init);
      WriteAtDenotes(ApplyAll(f, init), rs[|rs| - 1]);
      forall i: nat | i < |ApplyAll(f, rs)|
        ensures ApplyAll(f, rs)[i] == Overlay(f, rs, i)
      {
        CoveredBelowExtent(init, i);
      }
    }
  }

  lemma {:induction false} ExtentIsCovered(rs: seq<Run>)
    ensures Extent(rs) > 0 ==> ByteOf(rs, Extent(rs) - 1).Some?
  {
    if rs != [] {
      ExtentIsCovered(rs[..|rs| - 1]);
    }
  }

  /** Lists that put the same byte everywhere do the same to every file, length included. */
  lemma SameBytesSameFile(f: Content, rs: seq<Run>, ts: seq<Run>)
    requires forall i: nat :: ByteOf(rs, i) == ByteOf(ts, i)
    ensures ApplyAll(f, rs) == ApplyAll(f, ts)
  {
    SameCoverSameExtent(rs, ts);
    ApplyAllDenotes(f, rs);
    ApplyAllDenotes(f, ts);
    var a, b := ApplyAll(f, rs), ApplyAll(f, ts);
    forall i: nat | i < |a|
      ensures a[i] == b[i]
    {
      assert Overlay(f, rs, i) == Overlay(f, ts, i);
    }
  }

  lemma SameCoverSameExtent(rs: seq<Run>, ts: seq<Run>)
    requires forall i: nat :: ByteOf(rs, i) == ByteOf(ts, i)
    ensures Extent(rs) == Extent(ts)
  {
    ExtentIsCovered(rs);
    ExtentIsCovered(ts);
    if Extent(rs) > 0 { CoveredBelowExtent(ts, Extent(rs) - 1); }
    if Extent(ts) > 0 { CoveredBelowExtent(rs, Extent(ts) - 1); }
  }

  /** Lists covering the same positions do the same to `f` only if they put the same bytes. */
  lemma SameFileSameBytes(f: Content, rs: seq<Run>, ts: seq<Run>)
    requires ApplyAll(f, rs) == ApplyAll(f, ts)
    requires forall i: nat :: ByteOf(rs, i).Some? == ByteOf(ts, i).Some?
    ensures forall i: nat :: ByteOf(rs, i) == ByteOf(ts, i)
  {
    ApplyAllDenotes(f, rs);
    ApplyAllDenotes(f, ts);
    forall i: nat
      ensures ByteOf(rs, i) == ByteOf(ts, i)
    {
      CoveredBelowExtent(rs, i);
      if ByteOf(rs, i).Some? {
        assert ApplyAll(f, rs)[i] == Overlay(f, rs, i) == Overlay(f, ts, i);
      }
    }
  }

  lemma {:induction false} ByteOfConcat(a: seq<Run>, b: seq<Run>, i: nat)
    ensures ByteOf(a + b, i) == if ByteOf(b, i).Some? then ByteOf(b, i) else ByteOf(a, i)
  {
    if b == [] {
      assert a + b == a;
    } else {
      assert (a + b)[..|a + b| - 1] == a + b[..|b| - 1];
      ByteOfConcat(a, b[..|b| - 1], i);
    }
  }

  lemma {:induction false} ApplyAllConcat(f: Content, a: seq<Run>, b: seq<Run>)
    ensures ApplyAll(f, a + b) == ApplyAll(ApplyAll(f, a), b)
  {
    if b == [] {
      assert a + b == a;
    } else {
      assert (a + b)[..|a + b| - 1] == a + b[..|b| - 1];
      ApplyAllConcat(f, a, b[..|b| - 1]);
    }
  }

  lemma {:induction false} DataOfConcat(a: seq<Run>, b: seq<Run>)
    ensures DataOf(a + b) == DataOf(a) + DataOf(b)
  {
    if b == [] {
      assert a + b == a;
    } else {
      assert (a + b)[..|a + b| - 1] == a + b[..|b| - 1];
      DataOfConcat(a, b[..|b| - 1]);
    }
  }

  lemma {:induction false} BytesConcat(a: seq<Run>, b: seq<Run>)
    ensures Bytes(a + b) == Bytes(a) + Bytes(b)
  {
    if b == [] {
      assert a + b == a;
    } else {
      assert (a + b)[..|a + b| - 1] == a + b[..|b| - 1];
      BytesConcat(a, b[..|b| - 1]);
    }
  }

  lemma {:induction false} BytesBoundEach(rs: seq<Run>, k: nat)
    requires k < |rs|
    ensures |rs[k].data| <= Bytes(rs)
  {
    if k < |rs| - 1 {
      BytesBoundEach(rs[..|rs| - 1], k);
    }
  }

  lemma {:induction false} BytesZero(rs: seq<Run>)
    requires forall k :: 0 <= k < |rs| ==> rs[k].data == []
    ensures Bytes(rs) == 0
    ensures forall i: nat :: ByteOf(rs, i) == None
  {
    if rs != [] {
      BytesZero(rs[..|rs| - 1]);
    }
  }

  lemma {:induction false} CoverImplies(rs: seq<Run>, k: nat, i: nat)
    requires k < |rs| && rs[k].Covers(i)
    ensures ByteOf(rs, i).Some?
  {
    if k < |rs| - 1 {
      CoverImplies(rs[..|rs| - 1], k, i);
    }
  }

  /** A write that stays on positions `rs` covers is absorbed by a later `rs`. */
  lemma {:induction false} Absorbs(f: Content, p: Run, rs: seq<Run>)
    requires forall i: nat :: p.Covers(i) ==> ByteOf(rs, i).Some?
    ensures ApplyAll(WriteAt(f, p), rs) == ApplyAll(f, rs)
  {
    assert [p][..0] == [];
    assert ApplyAll(f, [p]) == WriteAt(f, p);
    ApplyAllConcat(f, [p], rs);
    forall i: nat
      ensures ByteOf([p] + rs, i) == ByteOf(rs, i)
    {
      ByteOfConcat([p], rs, i);
    }
    SameBytesSameFile(f, [p] + rs, rs);
  }

  /** Every byte of `rs` is there already. */
  ghost predicate AlreadyThere(f: Content, rs: seq<Run>) {
    forall i: nat :: ByteOf(rs, i).Some? ==> i < |f| && f[i] == ByteOf(rs, i).value
  }

  /** Leaving a list of writes out changes nothing if and only if every byte of it is there already. */
  lemma {:induction false} NothingAddedIff(f: Content, rs: seq<Run>)
    ensures ApplyAll(f, rs) == f <==> AlreadyThere(f, rs)
  {
    ApplyAllDenotes(f, rs);
    ExtentIsCovered(rs);
    hide ApplyAll, ByteOf, Extent;
    if ApplyAll(f, rs) == f {
      forall i: nat | ByteOf(rs, i).Some?
        ensures i < |f| && f[i] == ByteOf(rs, i).value
      {
        CoveredBelowExtent(rs, i);
      }
    }
    if AlreadyThere(f, rs) {
      forall i: nat | i < |f|
        ensures ApplyAll(f, rs)[i] == f[i]
      {
        assert ApplyAll(f, rs)[i] == Overlay(f, rs, i);
      }
    }
  }

  /** Every byte of `p` that `rs` does not overwrite is there already. */
  ghost predicate Invisible(f: Content, p: Run, rs: seq<Run>) {
    forall i: nat :: p.Covers(i) && ByteOf(rs, i).None? ==>
                       i < |ApplyAll(f, rs)| && ApplyAll(f, rs)[i] == p.data[i - p.offset]
  }

  lemma VisibleByte(f: Content, p: Run, rs: seq<Run>, i: nat)
    ensures i < |ApplyAll(WriteAt(f, p), rs)| ==>
              ApplyAll(WriteAt(f, p), rs)[i] ==
              if ByteOf(rs, i).Some? then ByteOf(rs, i).value
              else if p.Covers(i) then p.data[i - p.offset]
              else if i < |f| then f[i] else 0
    ensures i < |ApplyAll(f, rs)| ==>
              ApplyAll(f, rs)[i] ==
              if ByteOf(rs, i).Some? then ByteOf(rs, i).value else if i < |f| then f[i] else 0
    ensures |ApplyAll(WriteAt(f, p), rs)| == Max(|ApplyAll(f, rs)|, if p.data == [] then 0 else p.End())
  {
    hide ApplyAll, ByteOf, Extent, WriteAt;
    ApplyAllDenotes(f, rs);
    ApplyAllDenotes(WriteAt(f, p), rs);
    WriteAtDenotes(f, p);
  }

  /** A write under `rs` leaves no trace if and only if it is invisible. */
  lemma {:induction false} AbsorbedIff(f: Content, p: Run, rs: seq<Run>)
    ensures ApplyAll(WriteAt(f, p), rs) == ApplyAll(f, rs) <==> Invisible(f, p, rs)
  {
    hide ApplyAll, ByteOf, WriteAt;
    var a, b := ApplyAll(WriteAt(f, p), rs), ApplyAll(f, rs);
    VisibleByte(f, p, rs, 0);
    if a == b {
      forall i: nat | p.Covers(i) && ByteOf(rs, i).None?
        ensures i < |b| && b[i] == p.data[i - p.offset]
      {
        VisibleByte(f, p, rs, i);
      }
    }
    if Invisible(f, p, rs) {
      if p.data != [] {
        CoveredEnd(f, p, rs);
      }
      forall i: nat | i < |a|
        ensures a[i] == b[i]
      {
        VisibleByte(f, p, rs, i);
      }
    }
  }

  lemma CoveredEnd(f: Content, p: Run, rs: seq<Run>)
    requires Invisible(f, p, rs) && p.data != []
    ensures p.End() <= |ApplyAll(f, rs)|
  {
    hide ApplyAll;
    assert p.Covers(p.End() - 1);
    ApplyAllDenotes(f, rs);
    CoveredBelowExtent(rs, p.End() - 1);
  }
}
