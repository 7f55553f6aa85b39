/** One Read RPC: the server reads the disk in pieces and streams frames, the client joins them. */
module ReadRpc {
  import opened FileModel

  const CHUNK: nat := 256 * 1024
  const MAX_READ_REQUEST: nat := 16 * 1024 * 1024

  datatype Status = InvalidArg | Stale | DiskError

  /** A response frame. An error frame carries no data and says it is the last. */
  datatype Reply = Data(offset: nat, data: seq<Byte>, eof: bool) | Failed(offset: nat, status: Status)

  datatype Result<+T> = Success(value: T) | Failure

  /** The requested range clipped at end of file. */
  function Clip(f: Content, offset: nat, length: nat): Content {
    if |f| <= offset then []
    else if |f| <= offset + length then f[offset..]
    else f[offset..offset + length]
  }

  /** The bytes of `f` from `offset` on, up to `length` of them and to the end of the file. */
  ghost predicate IsRange(data: Content, f: Content, offset: nat, length: nat) {
    && |data| == (if |f| <= offset then 0 else if |f| - offset < length then |f| - offset else length)
    && forall i :: 0 <= i < |data| ==> offset + i < |f| && data[i] == f[offset + i]
  }

  lemma ClipIsRange(f: Content, offset: nat, length: nat)
    ensures IsRange(Clip(f, offset, length), f, offset, length)
  {
  }

  /** What a data frame carries is what the file holds at the frame's offset. */
  ghost predicate FromFile(r: Reply, f: Content) {
    r.Data? ==> forall i :: 0 <= i < |r.data| ==> r.offset + i < |f| && r.data[i] == f[r.offset + i]
  }

  /** How much one `read()` returns: at end of file nothing, otherwise at least one byte and at
      most what was asked for and is there. Every such amount has a `hint`. */
  function Amount(hint: nat, want: nat, there: nat): (n: nat)
    ensures n <= want && n <= there && (n == 0 <==> want == 0 || there == 0)
  {
    var most := if want < there then want else there;
    if most == 0 then 0 else if hint < most then hint + 1 else most
  }

  function Joined(frames: seq<Reply>): Content {
    if frames == [] then []
    else
      var last := frames[|frames| - 1];
      Joined(frames[..|frames| - 1]) + if last.Data? then last.data else []
  }

  /** Data frames of at most CHUNK bytes, each starting where the one before ended. */
  ghost predicate Pieces(frames: seq<Reply>, offset: nat) {
    forall i :: 0 <= i < |frames| && frames[i].Data? ==>
                  |frames[i].data| <= CHUNK && frames[i].offset == offset + |Joined(frames[..i])|
  }

  /** Only the last frame may be flagged or failed. */
  predicate Open(frames: seq<Reply>) {
    forall i :: 0 <= i < |frames| ==> frames[i].Data? && !frames[i].eof
  }

  predicate Ended(frames: seq<Reply>) {
    && frames != [] && Open(frames[..|frames| - 1])
    && (frames[|frames| - 1].Data? ==> frames[|frames| - 1].eof)
  }

  lemma JoinedPush(frames: seq<Reply>, r: Reply, offset: nat)
    requires Pieces(frames, offset)
    requires r.Data? ==> |r.data| <= CHUNK && r.offset == offset + |Joined(frames)|
    ensures Joined(frames + [r]) == Joined(frames) + if r.Data? then r.data else []
    ensures Pieces(frames + [r], offset)
  {
    var more := frames + [r];
    assert more[..|frames|] == frames;
    forall i | 0 <= i < |more| && more[i].Data?
      ensures |more[i].data| <= CHUNK && more[i].offset == offset + |Joined(more[..i])|
    {
      assert more[..i] == frames[..i];
    }
  }

  lemma ClipGrows(f: Content, offset: nat, done: nat, n: nat)
    requires n > 0 ==> offset + done + n <= |f|
    ensures Clip(f, offset, done + n) == Clip(f, offset, done) + Clip(f, offset + done, n)
    ensures |Clip(f, offset + done, n)| == n
  {
  }

  /** Everything up to `at` has been sent. */
  ghost predicate SoFar(f: Content, frames: seq<Reply>, offset: nat, at: nat) {
    && offset <= at && (at > offset ==> at <= |f|)
    && Joined(frames) == Clip(f, offset, at - offset) && |Joined(frames)| == at - offset
    && Pieces(frames, offset)
    && forall i :: 0 <= i < |frames| ==> frames[i].Data?
  }

  lemma NothingSent(f: Content, offset: nat)
    ensures SoFar(f, [], offset, offset) && Open([])
  {
  }

  lemma FramePushed(frames: seq<Reply>, r: Reply)
    requires Open(frames)
    ensures if r.Failed? || r.eof then Ended(frames + [r]) else Open(frames + [r])
  {
    assert (frames + [r])[..|frames|] == frames;
  }

  lemma FrameSent(f: Content, frames: seq<Reply>, offset: nat, at: nat, n: nat, last: bool)
    requires SoFar(f, frames, offset, at) && Open(frames) && n <= CHUNK && (n > 0 ==> at + n <= |f|)
    ensures var more := frames + [Data(at, Clip(f, at, n), last)];
            SoFar(f, more, offset, at + n) && if last then Ended(more) else Open(more)
  {
    hide Joined, Pieces, Clip, Open, Ended;
    ClipGrows(f, offset, at - offset, n);
    JoinedPush(frames, Data(at, Clip(f, at, n), last), offset);
    FramePushed(frames, Data(at, Clip(f, at, n), last));
  }

  lemma ClipFromFile(f: Content, at: nat, n: nat, last: bool)
    ensures FromFile(Data(at, Clip(f, at, n), last), f)
  {
    ClipIsRange(f, at, n);
  }

  lemma DiskFailed(f: Content, frames: seq<Reply>, offset: nat, at: nat)
    requires SoFar(f, frames, offset, at) && Open(frames)
    ensures Pieces(frames + [Failed(at, DiskError)], offset) && Ended(frames + [Failed(at, DiskError)])
  {
    JoinedPush(frames, Failed(at, DiskError), offset);
    FramePushed(frames, Failed(at, DiskError));
  }

  lemma AllSent(f: Content, frames: seq<Reply>, offset: nat, at: nat, length: nat)
    requires SoFar(f, frames, offset, at) && at <= offset + length
    requires at == offset + length || |f| <= at
    ensures Joined(frames) == Clip(f, offset, length) && Pieces(frames, offset)
    ensures forall i :: 0 <= i < |frames| ==> frames[i].Data?
  {
  }

  /** `disk(i)` is the outcome of the i-th read: an I/O error or a hint how much it returns. */
  type Disk = nat -> Option<nat>

  ghost predicate Reliable(disk: Disk) {
    forall i: nat :: disk(i).Some?
  }

  /** The frames of one answer: nothing for a request of no bytes, otherwise consecutive pieces of
      which exactly the last is flagged; they add up to the clipped range unless the disk failed. */
  ghost predicate Answers(frames: seq<Reply>, f: Content, offset: nat, length: nat) {
    && Pieces(frames, offset)
    && (length == 0 ==> frames == [])
    && (length > 0 ==> Ended(frames))
    && (length > 0 && frames[|frames| - 1].Data? ==> IsRange(Joined(frames), f, offset, length))
  }

  lemma DiskFailedAnswers(f: Content, frames: seq<Reply>, offset: nat, at: nat, length: nat)
    requires SoFar(f, frames, offset, at) && Open(frames) && length > 0
    ensures Answers(frames + [Failed(at, DiskError)], f, offset, length)
  {
    DiskFailed(f, frames, offset, at);
  }

  lemma AllSentAnswers(f: Content, frames: seq<Reply>, offset: nat, at: nat, length: nat)
    requires SoFar(f, frames, offset, at) && at <= offset + length
    requires at == offset + length || |f| <= at
    requires if length == 0 then frames == [] else Ended(frames)
    ensures Answers(frames, f, offset, length) && forall i :: 0 <= i < |frames| ==> frames[i].Data?
  {
    AllSent(f, frames, offset, at, length);
    ClipIsRange(f, offset, length);
  }

  /** The loop of `handle_read`. */
  method Stream(f: Content, offset: nat, length: nat, disk: Disk) returns (frames: seq<Reply>)
    ensures Answers(frames, f, offset, length)
    ensures forall i :: 0 <= i < |frames| ==> FromFile(frames[i], f)
    ensures (forall i :: 0 <= i < |frames| ==> frames[i].Data?) || !Reliable(disk)
  {
    frames := [];
    var remaining, at, turn := length, offset, 0;
    NothingSent(f, offset);
    hide Answers, Joined, Pieces, Clip, Open, Ended, SoFar, IsRange;
    while remaining > 0
      invariant 0 <= remaining && offset <= at && remaining + (at - offset) == length
      invariant SoFar(f, frames, offset, at)
      invariant forall i :: 0 <= i < |frames| ==> FromFile(frames[i], f)
      invariant if remaining > 0 then Open(frames) else if length == 0 then frames == [] else Ended(frames)
      decreases remaining
    {
      var toRead := if remaining < CHUNK then remaining else CHUNK;
      if disk(turn).None? {
        DiskFailedAnswers(f, frames, offset, at, length);
        frames := frames + [Failed(at, DiskError)];
        return;
      }
      var n := Amount(disk(turn).value, toRead, if at < |f| then |f| - at else 0);
      var data := Clip(f, at, n);
      var eof := n == 0;
      remaining := remaining - n;
      ClipFromFile(f, at, n, eof || remaining == 0);
      FrameSent(f, frames, offset, at, n, eof || remaining == 0);
      frames := frames + [Data(at, data, eof || remaining == 0)];
      if eof {
        break;
      }
      at, turn := at + n, turn + 1;
    }
    AllSentAnswers(f, frames, offset, at, length);
  }

  /** `handle_read` on the retained file, if the handle is known. */
  method HandleRead(file: Option<Content>, offset: nat, length: nat, disk: Disk) returns (frames: seq<Reply>)
    ensures length > MAX_READ_REQUEST ==> frames == [Failed(offset, InvalidArg)]
    ensures length <= MAX_READ_REQUEST && file.None? ==> frames == [Failed(offset, Stale)]
    ensures length <= MAX_READ_REQUEST && file.Some? ==>
              && Answers(frames, file.value, offset, length)
              && (forall i :: 0 <= i < |frames| ==> FromFile(frames[i], file.value))
              && ((forall i :: 0 <= i < |frames| ==> frames[i].Data?) || !Reliable(disk))
  {
    if length > MAX_READ_REQUEST {
      return [Failed(offset, InvalidArg)];
    }
    if file.None? {
      return [Failed(offset, Stale)];
    }
    frames := Stream(file.value, offset, length, disk);
  }

  /** The loop of `ConnManager::read` over the frames of the stream. */
  method Collect(frames: seq<Reply>) returns (r: Result<Content>)
    ensures r.Success? <==> Finishes(frames)
    ensures r.Success? && Ended(frames) ==> r.value == Joined(frames)
  {
    var data: Content, k := [], 0;
    assert Joined([]) == [];
    while k < |frames|
      invariant 0 <= k <= |frames| && Open(frames[..k]) && data == Joined(frames[..k])
    {
      assert frames[..k + 1][..k] == frames[..k];
      if frames[k].Failed? {
        FinishesOnce(frames, k);
        return Failure;
      }
      data := data + frames[k].data;
      if frames[k].eof {
        FinishesOnce(frames, k);
        assert Ended(frames) && k < |frames| - 1 ==>
            Open(frames[..|frames| - 1]) && frames[..|frames| - 1][k] == frames[k];
        assert k == |frames| - 1 ==> frames[..k + 1] == frames;
        return Success(data);
      }
      k := k + 1;
    }
    assert frames[..k] == frames;
    return Failure;
  }

  /** Some frame is flagged and all before it are plain data. */
  ghost predicate Finishes(frames: seq<Reply>) {
    exists k :: 0 <= k < |frames| && frames[k].Data? && frames[k].eof && Open(frames[..k])
  }

  lemma FinishesOnce(frames: seq<Reply>, k: nat)
    requires k < |frames| && Open(frames[..k]) && (frames[k].Failed? || frames[k].eof)
    ensures Finishes(frames) <==> frames[k].Data?
  {
    if Finishes(frames) {
      var j :| 0 <= j < |frames| && frames[j].Data? && frames[j].eof && Open(frames[..j]);
      OpenPrefix(frames, j);
      OpenPrefix(frames, k);
    }
  }

  lemma OpenPrefix(frames: seq<Reply>, k: nat)
    requires k <= |frames| && Open(frames[..k])
    ensures forall j :: 0 <= j < k ==> frames[j].Data? && !frames[j].eof
  {
    assert forall j :: 0 <= j < k ==> frames[..k][j] == frames[j];
  }

  lemma EndedFinishes(frames: seq<Reply>)
    requires Ended(frames)
    ensures Finishes(frames) <==> frames[|frames| - 1].Data?
  {
    FinishesOnce(frames, |frames| - 1);
  }

  /** The RPC end to end: an answer is exactly the requested range clipped at end of file whatever
      amounts the disk returned, and there is one for every length from 1 to 16 MiB on a known
      handle unless the disk fails; a request for no bytes is never answered. */
  method Read(file: Option<Content>, offset: nat, length: nat, disk: Disk) returns (r: Result<Content>)
    ensures r.Success? ==> 0 < length <= MAX_READ_REQUEST && file.Some?
    ensures r.Success? ==>
              && |r.value| == (if |file.value| <= offset then 0
                               else if |file.value| - offset < length then |file.value| - offset else length)
              && forall i :: 0 <= i < |r.value| ==> offset + i < |file.value| && r.value[i] == file.value[offset + i]
    ensures 0 < length <= MAX_READ_REQUEST && file.Some? && Reliable(disk) ==> r.Success?
  {
    var frames := HandleRead(file, offset, length, disk);
    if frames != [] {
      EndedFinishes(frames);
    }
    if file.Some? {
      ClipIsRange(file.value, offset, length);
    }
    r := Collect(frames);
  }
}
