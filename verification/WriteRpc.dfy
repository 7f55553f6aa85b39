/** One Write RPC: the client cuts the data into frames, the server writes frame after frame. */
module WriteRpc {
  import opened FileModel
  import opened HandleProtocol

  datatype Frame = Frame(offset: nat, data: seq<Byte>, done: bool) {
    function Run(): Run {
      FileModel.Run(offset, data)
    }
  }

  const U64_MAX: nat := 0xFFFF_FFFF_FFFF_FFFF

  function SaturatingAdd(a: nat, b: nat): nat {
    if a + b <= U64_MAX then a + b else U64_MAX
  }

  function FrameBytes(frames: seq<Frame>): nat {
    if frames == [] then 0 else FrameBytes(frames[..|frames| - 1]) + |frames[|frames| - 1].data|
  }

  /** `frames` cut `data` into consecutive nonempty pieces from `offset` on, and exactly the last
      frame says it is the last. */
  ghost predicate Frames(frames: seq<Frame>, offset: nat, data: seq<Byte>) {
    && FrameBytes(frames) == |data|
    && forall i :: 0 <= i < |frames| ==> FrameFits(frames, i, offset, data)
  }

  ghost predicate FrameFits(frames: seq<Frame>, i: nat, offset: nat, data: seq<Byte>)
    requires i < |frames|
  {
    var at, fr := FrameBytes(frames[..i]), frames[i];
    && fr.data != [] && fr.offset == offset + at
    && at + |fr.data| <= |data| && fr.data == data[at..at + |fr.data|]
    && (fr.done <==> i == |frames| - 1)
  }

  /** `ConnManager::write`, up to waiting for the answer: `slice::chunks` by the configured size,
      at least one. */
  method SendFrames(offset: nat, data: seq<Byte>, configured: nat) returns (frames: seq<Frame>)
    ensures Frames(frames, offset, data)
    ensures forall i :: 0 <= i < |frames| ==>
                          |frames[i].data| == configured || (i == |frames| - 1 && |frames[i].data| <= configured)
                          || (configured == 0 && |frames[i].data| == 1)
  {
    var size := if configured < 1 then 1 else configured;
    frames := [];
    var i, at := 0, 0;
    while at < |data|
      invariant i == |frames| && at <= |data| && FrameBytes(frames) == at
      invariant at < |data| ==> at == i * size
      invariant forall j :: 0 <= j < |frames| ==> |frames[j].data| == size || (at == |data| && j == |frames| - 1)
      invariant forall j :: 0 <= j < |frames| ==> 0 < |frames[j].data| <= size
      invariant forall j :: 0 <= j < |frames| ==> Piece(frames, j, offset, data)
      invariant forall j :: 0 <= j < |frames| ==> (frames[j].done <==> at == |data| && j == |frames| - 1)
      decreases |data| - at
    {
      var end := if at + size < |data| then at + size else |data|;
      var fr := Frame(offset + i * size, data[at..end], end == |data|);
      OnePieceMore(frames, fr, offset, data, at);
      NextMultiple(i, size);
      frames, i, at := frames + [fr], i + 1, end;
    }
    forall j | 0 <= j < |frames|
      ensures FrameFits(frames, j, offset, data)
    {
      assert Piece(frames, j, offset, data);
    }
  }

  lemma NextMultiple(i: nat, size: nat)
    ensures (i + 1) * size == i * size + size
  {
  }

  lemma OnePieceMore(frames: seq<Frame>, fr: Frame, offset: nat, data: seq<Byte>, at: nat)
    requires FrameBytes(frames) == at && at + |fr.data| <= |data|
    requires fr.offset == offset + at && fr.data == data[at..at + |fr.data|]
    requires forall j :: 0 <= j < |frames| ==> Piece(frames, j, offset, data)
    ensures forall j :: 0 <= j < |frames| + 1 ==> Piece(frames + [fr], j, offset, data)
    ensures FrameBytes(frames + [fr]) == at + |fr.data|
  {
    LastPiece(frames, fr, offset, data, at);
    hide Piece, FrameBytes;
    forall j | 0 <= j < |frames| + 1
      ensures Piece(frames + [fr], j, offset, data)
    {
      if j < |frames| {
        PieceStays(frames, fr, offset, data, j);
      }
    }
  }

  lemma LastPiece(frames: seq<Frame>, fr: Frame, offset: nat, data: seq<Byte>, at: nat)
    requires FrameBytes(frames) == at && at + |fr.data| <= |data|
    requires fr.offset == offset + at && fr.data == data[at..at + |fr.data|]
    ensures Piece(frames + [fr], |frames|, offset, data)
    ensures FrameBytes(frames + [fr]) == at + |fr.data|
  {
    assert (frames + [fr])[..|frames|] == frames;
  }

  lemma PieceStays(frames: seq<Frame>, fr: Frame, offset: nat, data: seq<Byte>, j: nat)
    requires j < |frames| && Piece(frames, j, offset, data)
    ensures Piece(frames + [fr], j, offset, data)
  {
    assert (frames + [fr])[..j] == frames[..j];
  }

  ghost predicate Piece(frames: seq<Frame>, i: nat, offset: nat, data: seq<Byte>)
    requires i < |frames|
  {
    var at, fr := FrameBytes(frames[..i]), frames[i];
    fr.offset == offset + at && at + |fr.data| <= |data| && fr.data == data[at..at + |fr.data|]
  }

  // ----- the server -----

  datatype Response = Ok(written: nat) | Error(written: nat)

  /** The file once `frames` have been written one after another. */
  function Stored(append: bool, f: Content, frames: seq<Frame>): Content {
    if frames == [] then f
    else Store(append, Stored(append, f, frames[..|frames| - 1]), frames[|frames| - 1].Run())
  }

  /** `n` whole frames and `k` bytes of the next. */
  function StoredPart(append: bool, f: Content, frames: seq<Frame>, n: nat, k: nat): Content
    requires n <= |frames| && (k == 0 || (n < |frames| && k <= |frames[n].data|))
  {
    var g := Stored(append, f, frames[..n]);
    if k == 0 then g else Store(append, g, Cut(frames[n].Run(), k))
  }

  lemma NextFrame(append: bool, f: Content, frames: seq<Frame>, n: nat)
    requires n < |frames|
    ensures Stored(append, f, frames[..n + 1]) == Store(append, Stored(append, f, frames[..n]), frames[n].Run())
    ensures FrameBytes(frames[..n + 1]) == FrameBytes(frames[..n]) + |frames[n].data|
  {
    assert frames[..n + 1][..n] == frames[..n];
  }

  /** `handle_write` under the stripe lock, with the file as the retained descriptor sees it.
      `disk(i)` is how many bytes of frame `i` got written before an error, if one struck; when
      the frames run out before one says it is the last, the connection broke and there is no
      answer. Also returned: how many whole frames and bytes of the next were applied. */
  method HandleWrite(file: Content, frames: seq<Frame>, append: bool, disk: nat -> Option<nat>)
    returns (after: Content, resp: Option<Response>, n: nat, k: nat)
    requires frames != []
    ensures Served(file, frames, append, after, resp, n, k)
    ensures resp.Some? && resp.value.Error? <==> n < |frames| && disk(n).Some? && (0 < n ==> !frames[n - 1].done)
    ensures resp.Some? && resp.value.Error? ==>
              k == if disk(n).value <= |frames[n].data| then disk(n).value else |frames[n].data|
    ensures forall j :: 0 <= j < n ==> disk(j).None?
  {
    var total, done := 0, false;
    after, n, k := file, 0, 0;
    while !done
      invariant n <= |frames| && (n == 0 ==> !done)
      invariant after == Stored(append, file, frames[..n])
      invariant total == MinU64(FrameBytes(frames[..n]))
      invariant forall j :: 0 <= j < n - 1 ==> !frames[j].done
      invariant forall j :: 0 <= j < n ==> disk(j).None?
      invariant 0 < n ==> done == frames[n - 1].done
      decreases |frames| - n, !done
    {
      if n == |frames| {
        return after, None, n, 0;
      }
      var fr := frames[n];
      var hit := disk(n);
      if hit.Some? {
        var part := if hit.value <= |fr.data| then hit.value else |fr.data|;
        if part > 0 {
          after := Store(append, after, Cut(fr.Run(), part));
        }
        return after, Some(Error(total)), n, part;
      }
      NextFrame(append, file, frames, n);
      after := Store(append, after, fr.Run());
      total := SaturatingAdd(total, |fr.data|);
      done := fr.done;
      n := n + 1;
    }
    return after, Some(Ok(total)), n, 0;
  }

  /** `n` whole frames and `k` bytes of the next are in the file. The answer is Ok exactly when
      the last of them was marked as the last and none before it; none comes if no frame was;
      after a disk error it counts the whole frames. */
  ghost predicate Served(file: Content, frames: seq<Frame>, append: bool, after: Content, resp: Option<Response>,
                         n: nat, k: nat) {
    && n <= |frames| && (k == 0 || (n < |frames| && k <= |frames[n].data|))
    && after == StoredPart(append, file, frames, n, k)
    && (resp.Some? ==> resp.value.written == MinU64(FrameBytes(frames[..n])))
    && (resp.Some? && resp.value.Ok? ==> 0 < n && k == 0 && frames[n - 1].done)
    && (resp.None? || resp.value.Error? ==> 0 < n ==> !frames[n - 1].done)
    && (resp.None? ==> n == |frames| && k == 0)
    && (forall j :: 0 <= j < n - 1 ==> !frames[j].done)
  }

  function MinU64(a: nat): nat {
    if a <= U64_MAX then a else U64_MAX
  }

  // ----- both ends together -----

  /** Two writes that touch are one. */
  lemma {:induction false} StoreJoins(append: bool, f: Content, offset: nat, a: seq<Byte>, b: seq<Byte>)
    ensures Store(append, Store(append, f, Run(offset, a)), Run(offset + |a|, b)) == Store(append, f, Run(offset,
           a + b))
  {
    if append {
      assert f + a + b == f + (a + b);
    } else if a == [] {
      assert a + b == b;
    } else if b == [] {
      assert a + b == a;
    } else {
      var x := WriteAt(WriteAt(f, Run(offset, a)), Run(offset + |a|, b));
      var y := WriteAt(f, Run(offset, a + b));
      WriteAtDenotes(f, Run(offset, a));
      WriteAtDenotes(WriteAt(f, Run(offset, a)), Run(offset + |a|, b));
      WriteAtDenotes(f, Run(offset, a + b));
      assert |x| == |y|;
      forall i: nat | i < |x|
        ensures x[i] == y[i]
      {
      }
    }
  }

  lemma OneMorePiece(append: bool, f: Content, offset: nat, data: seq<Byte>, at: nat, more: seq<Byte>)
    requires at + |more| <= |data| && more == data[at..at + |more|]
    ensures Store(append, Store(append, f, Run(offset, data[..at])), Run(offset + at, more))
            == Store(append, f, Run(offset, data[..at + |more|]))
  {
    StoreJoins(append, f, offset, data[..at], more);
    assert data[..at] + more == data[..at + |more|];
  }

  /** Any whole frames that got applied amount to one write of a prefix of the data. */
  lemma {:induction false} FramesAreOneWrite(append: bool, f: Content, frames: seq<Frame>, offset: nat,
                                             data: seq<Byte>, n: nat)
    requires Frames(frames, offset, data) && n <= |frames|
    ensures FrameBytes(frames[..n]) <= |data|
    ensures Stored(append, f, frames[..n]) == Store(append, f, Run(offset, data[..FrameBytes(frames[..n])]))
    decreases n
  {
    hide Store;
    if n == 0 {
      assert frames[..0] == [] && data[..0] == [];
      StoresNothing(append, f, offset);
    } else {
      FramesAreOneWrite(append, f, frames, offset, data, n - 1);
      NextFrame(append, f, frames, n - 1);
      assert FrameFits(frames, n - 1, offset, data);
      OneMorePiece(append, f, offset, data, FrameBytes(frames[..n - 1]), frames[n - 1].data);
    }
  }

  lemma StoresNothing(append: bool, f: Content, offset: nat)
    ensures Store(append, f, Run(offset, [])) == f
  {
  }

  /** Nor does a frame cut short change that. */
  lemma {:induction false} PartIsOneWrite(append: bool, f: Content, frames: seq<Frame>, offset: nat, data: seq<Byte>,
                                          n: nat, k: nat)
    requires Frames(frames, offset, data)
    requires n <= |frames| && (k == 0 || (n < |frames| && k <= |frames[n].data|))
    ensures FrameBytes(frames[..n]) + k <= |data|
    ensures StoredPart(append, f, frames, n, k) == Store(append, f, Run(offset, data[..FrameBytes(frames[..n]) + k]))
  {
    hide Store;
    FramesAreOneWrite(append, f, frames, offset, data, n);
    if k > 0 {
      assert FrameFits(frames, n, offset, data);
      OneMorePiece(append, f, offset, data, FrameBytes(frames[..n]), frames[n].data[..k]);
    }
  }

  /** The last frame is the only one marked, so an Ok answer means every frame. */
  lemma OkMeansEveryFrame(frames: seq<Frame>, offset: nat, data: seq<Byte>, arrived: nat, n: nat)
    requires Frames(frames, offset, data) && arrived <= |frames| && 0 < n <= arrived
    requires frames[..arrived][n - 1].done
    ensures n == |frames| && FrameBytes(frames[..n]) == |data|
  {
    assert FrameFits(frames, n - 1, offset, data);
    assert frames[..n] == frames;
  }

  lemma ArrivedPart(append: bool, f: Content, frames: seq<Frame>, arrived: nat, n: nat, k: nat)
    requires n <= arrived <= |frames| && (k == 0 || (n < arrived && k <= |frames[n].data|))
    ensures frames[..arrived][..n] == frames[..n]
    ensures StoredPart(append, f, frames[..arrived], n, k) == StoredPart(append, f, frames, n, k)
  {
    assert frames[..arrived][..n] == frames[..n];
  }

  /** Chunking composed with the server loop: whatever the chunk size, however many frames arrive
      before the connection breaks, and whatever disk error strikes, the file ends as one write
      of a prefix of the data, at the offset or at end of file; and an Ok answer means all of it,
      with its length. */
  lemma {:induction false} RpcIsOneWrite(file: Content, offset: nat, data: seq<Byte>, frames: seq<Frame>,
                                         arrived: nat, append: bool,
                      after: Content, resp: Option<Response>, n: nat, k: nat)
    requires Frames(frames, offset, data) && |data| <= U64_MAX && arrived <= |frames|
    requires Served(file, frames[..arrived], append, after, resp, n, k)
    ensures n <= |frames| && FrameBytes(frames[..n]) + k <= |data|
    ensures after == Store(append, file, Run(offset, data[..FrameBytes(frames[..n]) + k]))
    ensures resp.Some? && resp.value.Ok? ==>
              after == Store(append, file, Run(offset, data)) && resp.value.written == |data|
  {
    ArrivedPart(append, file, frames, arrived, n, k);
    PartIsOneWrite(append, file, frames, offset, data, n, k);
    if resp.Some? && resp.value.Ok? {
      OkMeansEveryFrame(frames, offset, data, arrived, n);
      assert data[..|data|] == data;
    }
  }

  /** A write of no bytes sends no frame, so no answer can come: the source's flush of an empty
      chunk ends in its deadline. */
  lemma {:induction false} NoDataNoFrames(frames: seq<Frame>, offset: nat)
    ensures Frames(frames, offset, []) <==> frames == []
  {
    if frames != [] {
      assert Frames(frames, offset, []) ==> FrameFits(frames, 0, offset, []);
    }
  }
}
