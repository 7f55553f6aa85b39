/** Any number of Write RPCs at once, over any handles and sessions: the stripe lock makes each
    land as a unit, in the order the locks were taken. */
module WriteSerial {
  import opened FileModel
  import opened HandleProtocol
  import opened WriteRpc
  import opened WriteLock

  // ----- RPCs in progress -----

  /** A Write RPC past its handle lookup: the file it is for, the handle's mode, what it will send. */
  datatype Rpc = Rpc(key: nat, append: bool, frames: seq<Frame>)

  /** `applied` is what has reached the file: whole frames, the last possibly cut short. */
  datatype Status = Waiting | Holding(applied: seq<Frame>) | Over(applied: seq<Frame>) {
    function Applied(): seq<Frame> {
      if Waiting? then [] else applied
    }
  }

  /** `lockOf` maps an inode key to its stripe; `locks` says who holds which; `order` lists RPCs as
      they got their lock. */
  datatype Server = Server(
    rpcs: seq<Rpc>,
    files: map<nat, Content>,
    status: seq<Status>,
    locks: map<nat, nat>,
    order: seq<nat>)

  datatype Move =
    | Acquire(r: nat)            // the stripe's mutex
    | WriteFrame(r: nat)         // seek and write_all of the next frame
    | WriteCut(r: nat, k: nat)   // write_all fails after k bytes; the RPC is over
    | Leave(r: nat)              // done, error or timeout: the guard is dropped

  predicate Holds(s: Server, r: nat) {
    r < |s.rpcs| && r < |s.status| && s.status[r].Holding?
  }

  predicate HasNext(s: Server, r: nat) {
    && Holds(s, r) && |s.status[r].applied| < |s.rpcs[r].frames| && s.rpcs[r].key in s.files
  }

  predicate May(lockOf: nat -> nat, s: Server, m: Move) {
    match m
    case Acquire(r) =>
      && r < |s.rpcs| && r < |s.status| && s.status[r].Waiting?
      && lockOf(s.rpcs[r].key) !in s.locks
    case WriteFrame(r) => HasNext(s, r)
    case WriteCut(r, k) => HasNext(s, r) && k <= |s.rpcs[r].frames[|s.status[r].applied|].data|
    case Leave(r) => Holds(s, r)
  }

  /** `fr` reaches the file of RPC `r`. */
  function Put(s: Server, r: nat, fr: Frame): Server
    requires Holds(s, r) && s.rpcs[r].key in s.files
  {
    var rpc := s.rpcs[r];
    s.(files := s.files[rpc.key := Store(rpc.append, s.files[rpc.key], fr.Run())],
    status := s.status[r := Holding(s.status[r].applied + [fr])])
  }

  function Unlock(lockOf: nat -> nat, s: Server, r: nat): Server
    requires Holds(s, r)
  {
    s.(status := s.status[r := Over(s.status[r].applied)], locks := s.locks - {lockOf(s.rpcs[r].key)})
  }

  function After(lockOf: nat -> nat, s: Server, m: Move): Server
    requires May(lockOf, s, m)
  {
    match m
    case Acquire(r) =>
      s.(status := s.status[r := Holding([])], locks := s.locks[lockOf(s.rpcs[r].key) := r], order := s.order + [r])
    case WriteFrame(r) => Put(s, r, s.rpcs[r].frames[|s.status[r].applied|])
    case WriteCut(r, k) =>
      var fr := s.rpcs[r].frames[|s.status[r].applied|];
      Unlock(lockOf, Put(s, r, fr.(data := fr.data[..k])), r)
    case Leave(r) => Unlock(lockOf, s, r)
  }

  /** What each move does: taking the lock puts the RPC last in the order with nothing applied, a frame
      adds all its bytes, a cut frame adds `k` and ends the RPC, leaving ends it; nothing else changes. */
  lemma {:induction false} MoveApplies(lockOf: nat -> nat, s: Server, m: Move)
    requires May(lockOf, s, m)
    ensures var s', r := After(lockOf, s, m), m.r;
            && s'.rpcs == s.rpcs && |s'.status| == |s.status|
            && (forall q :: 0 <= q < |s.status| && q != r ==> s'.status[q] == s.status[q])
            && s'.order == (if m.Acquire? then s.order + [r] else s.order)
            && (m.Acquire? ==> s'.status[r] == Holding([]) && lockOf(s.rpcs[r].key) in s'.locks)
            && (m.WriteFrame? ==>
                  && s'.status[r].Holding?
                  && FrameBytes(s'.status[r].applied)
                     == FrameBytes(s.status[r].applied) + |s.rpcs[r].frames[|s.status[r].applied|].data|)
            && (m.WriteCut? ==>
                  s'.status[r].Over? && FrameBytes(s'.status[r].applied) == FrameBytes(s.status[r].applied) + m.k)
            && (m.Leave? ==> s'.status[r] == Over(s.status[r].applied))
            && (m.WriteCut? || m.Leave? ==> lockOf(s.rpcs[r].key) !in s'.locks)
  {
    hide Store;
    if m.WriteFrame? || m.WriteCut? {
      var ap, fr := s.status[m.r].applied, s.rpcs[m.r].frames[|s.status[m.r].applied|];
      assert (ap + [fr])[..|ap|] == ap;
      if m.WriteCut? {
        assert (ap + [fr.(data := fr.data[..m.k])])[..|ap|] == ap;
      }
    }
  }

  // ----- one after another -----

  /** File `key` after the RPCs of `order` run one after another, each applying what it did. */
  ghost function Serial(rpcs: seq<Rpc>, status: seq<Status>, order: seq<nat>, f: Content, key: nat): Content
    requires forall i :: 0 <= i < |order| ==> order[i] < |rpcs| && order[i] < |status|
  {
    if order == [] then f
    else
      var r := order[|order| - 1];
      var g := Serial(rpcs, status, order[..|order| - 1], f, key);
      if rpcs[r].key == key then Stored(rpcs[r].append, g, status[r].Applied()) else g
  }

  /** A holder's lock is its own; whoever got a lock later than it holds or held another stripe. */
  ghost predicate Locked(lockOf: nat -> nat, s: Server) {
    && |s.status| == |s.rpcs|
    && (forall i :: 0 <= i < |s.order| ==> s.order[i] < |s.rpcs|)
    && (forall i, j :: 0 <= i < j < |s.order| ==> s.order[i] != s.order[j])
    && (forall r :: 0 <= r < |s.rpcs| ==> (s.status[r].Waiting? <==> r !in s.order))
    && (forall r :: 0 <= r < |s.rpcs| && s.status[r].Holding? ==>
                      lockOf(s.rpcs[r].key) in s.locks && s.locks[lockOf(s.rpcs[r].key)] == r)
    && (forall i, j :: 0 <= i < j < |s.order| && s.status[s.order[i]].Holding? ==>
                         lockOf(s.rpcs[s.order[i]].key) != lockOf(s.rpcs[s.order[j]].key))
  }

  /** What was applied is a prefix of the RPC's frames, the last possibly cut short. */
  predicate PrefixOf(applied: seq<Frame>, frames: seq<Frame>) {
    || applied <= frames
    || (&& 0 < |applied| <= |frames|
        && applied[..|applied| - 1] == frames[..|applied| - 1]
        && applied[|applied| - 1].offset == frames[|applied| - 1].offset
        && applied[|applied| - 1].data <= frames[|applied| - 1].data)
  }

  ghost predicate InOrder(init: map<nat, Content>, s: Server)
    requires |s.status| == |s.rpcs| && forall i :: 0 <= i < |s.order| ==> s.order[i] < |s.rpcs|
  {
    && s.files.Keys == init.Keys
    && forall key :: key in init ==> s.files[key] == Serial(s.rpcs, s.status, s.order, init[key], key)
  }

  ghost predicate Prefixes(s: Server)
    requires |s.status| == |s.rpcs|
  {
    && (forall r :: 0 <= r < |s.rpcs| && s.status[r].Holding? ==> s.status[r].applied <= s.rpcs[r].frames)
    && (forall r :: 0 <= r < |s.rpcs| ==> PrefixOf(s.status[r].Applied(), s.rpcs[r].frames))
  }

  ghost predicate Fine(lockOf: nat -> nat, init: map<nat, Content>, s: Server) {
    Locked(lockOf, s) && InOrder(init, s) && Prefixes(s)
  }

  ghost predicate Begins(s: Server) {
    && |s.status| == |s.rpcs| && (forall r :: 0 <= r < |s.status| ==> s.status[r].Waiting?)
    && s.locks == map[] && s.order == []
  }

  /** RPCs not in `order` do not matter, and new entries only matter for their own file. */
  lemma {:induction false} SerialFrame(rpcs: seq<Rpc>, st: seq<Status>, st': seq<Status>, order: seq<nat>,
                                       f: Content, key: nat)
    requires |st| == |st'| && forall i :: 0 <= i < |order| ==> order[i] < |rpcs| && order[i] < |st|
    requires forall i :: 0 <= i < |order| && rpcs[order[i]].key == key ==>
                           st[order[i]].Applied() == st'[order[i]].Applied()
    ensures Serial(rpcs, st, order, f, key) == Serial(rpcs, st', order, f, key)
  {
    if order != [] {
      SerialFrame(rpcs, st, st', order[..|order| - 1], f, key);
    }
  }

  /** One more frame of `r` lands after everything so far when nobody later in the order is for
      the same file. */
  lemma {:induction false} SerialGrows(rpcs: seq<Rpc>, st: seq<Status>, r: nat, fr: Frame, order: seq<nat>,
                                       f: Content, p: nat)
    requires r < |rpcs| && r < |st| && st[r].Holding?
    requires forall i :: 0 <= i < |order| ==> order[i] < |rpcs| && order[i] < |st|
    requires p < |order| && order[p] == r && forall i :: 0 <= i < |order| && i != p ==> order[i] != r
    requires forall i :: p < i < |order| ==> rpcs[order[i]].key != rpcs[r].key
    ensures Serial(rpcs, st[r := Holding(st[r].applied + [fr])], order, f, rpcs[r].key)
            == Store(rpcs[r].append, Serial(rpcs, st, order, f, rpcs[r].key), fr.Run())
  {
    var st' := st[r := Holding(st[r].applied + [fr])];
    var init := order[..|order| - 1];
    if p == |order| - 1 {
      SerialFrame(rpcs, st, st', init, f, rpcs[r].key);
      var ap := st[r].applied;
      assert (ap + [fr])[..|ap|] == ap;
    } else {
      SerialGrows(rpcs, st, r, fr, init, f, p);
    }
  }

  lemma AcquireKeepsLocks(lockOf: nat -> nat, s: Server, r: nat)
    requires Locked(lockOf, s) && May(lockOf, s, Acquire(r))
    ensures Locked(lockOf, After(lockOf, s, Acquire(r)))
  {
    var s' := After(lockOf, s, Acquire(r));
    assert r !in s.order;
    forall q | 0 <= q < |s.rpcs|
      ensures s'.status[q].Waiting? <==> q !in s'.order
    {
      assert s'.order[|s.order|] == r;
      assert q in s'.order <==> q in s.order || q == r;
    }
  }

  lemma AcquireKeepsSerial(lockOf: nat -> nat, s: Server, r: nat, f: Content, key: nat)
    requires Locked(lockOf, s) && May(lockOf, s, Acquire(r))
    requires Locked(lockOf, After(lockOf, s, Acquire(r)))
    ensures var s' := After(lockOf, s, Acquire(r));
            Serial(s.rpcs, s.status, s.order, f, key) == Serial(s'.rpcs, s'.status, s'.order, f, key)
  {
    var s' := After(lockOf, s, Acquire(r));
    assert s'.order[..|s.order|] == s.order;
    SerialFrame(s.rpcs, s.status, s'.status, s.order, f, key);
  }

  lemma FineAcquire(lockOf: nat -> nat, init: map<nat, Content>, s: Server, r: nat)
    requires Fine(lockOf, init, s) && May(lockOf, s, Acquire(r))
    ensures Fine(lockOf, init, After(lockOf, s, Acquire(r)))
  {
    AcquireKeepsLocks(lockOf, s, r);
    forall key | key in init {
      AcquireKeepsSerial(lockOf, s, r, init[key], key);
    }
    hide Locked, Serial;
  }

  lemma PutKeepsLocks(lockOf: nat -> nat, s: Server, r: nat, fr: Frame)
    requires Locked(lockOf, s) && Holds(s, r) && s.rpcs[r].key in s.files
    ensures Locked(lockOf, Put(s, r, fr))
  {
  }

  lemma PutKeepsSerial(lockOf: nat -> nat, init: map<nat, Content>, s: Server, r: nat, fr: Frame, key: nat)
    requires Locked(lockOf, s) && InOrder(init, s) && Holds(s, r) && s.rpcs[r].key in s.files && key in init
    ensures var s' := Put(s, r, fr);
            key in s'.files && s'.files[key] == Serial(s'.rpcs, s'.status, s'.order, init[key], key)
  {
    var s' := Put(s, r, fr);
    if key == s.rpcs[r].key {
      assert r in s.order;
      var p :| 0 <= p < |s.order| && s.order[p] == r;
      SerialGrows(s.rpcs, s.status, r, fr, s.order, init[key], p);
    } else {
      SerialFrame(s.rpcs, s.status, s'.status, s.order, init[key], key);
    }
  }

  lemma WriteKeepsPrefixes(s: Server, r: nat)
    requires |s.status| == |s.rpcs| && Prefixes(s) && HasNext(s, r)
    ensures Prefixes(Put(s, r, s.rpcs[r].frames[|s.status[r].applied|]))
  {
    hide Store;
    var ap, frames := s.status[r].applied, s.rpcs[r].frames;
    assert ap + [frames[|ap|]] <= frames;
  }

  lemma FineWrite(lockOf: nat -> nat, init: map<nat, Content>, s: Server, r: nat)
    requires Fine(lockOf, init, s) && May(lockOf, s, WriteFrame(r))
    ensures Fine(lockOf, init, After(lockOf, s, WriteFrame(r)))
  {
    var fr := s.rpcs[r].frames[|s.status[r].applied|];
    PutKeepsLocks(lockOf, s, r, fr);
    WriteKeepsPrefixes(s, r);
    forall key | key in init {
      PutKeepsSerial(lockOf, init, s, r, fr, key);
    }
    hide Locked, Serial, Prefixes, Store;
  }

  lemma UnlockKeeps(lockOf: nat -> nat, s: Server, r: nat)
    requires Locked(lockOf, s) && Holds(s, r)
    ensures Locked(lockOf, Unlock(lockOf, s, r))
  {
    var s' := Unlock(lockOf, s, r);
    forall q | 0 <= q < |s.rpcs| && s'.status[q].Holding?
      ensures lockOf(s.rpcs[q].key) in s'.locks && s'.locks[lockOf(s.rpcs[q].key)] == q
    {
      assert s.status[q].Holding?;
    }
  }

  lemma UnlockKeepsSerial(lockOf: nat -> nat, init: map<nat, Content>, s: Server, r: nat, key: nat)
    requires Locked(lockOf, s) && Holds(s, r) && key in init && key in s.files
    requires s.files[key] == Serial(s.rpcs, s.status, s.order, init[key], key)
    ensures var s' := Unlock(lockOf, s, r);
            s'.files[key] == Serial(s'.rpcs, s'.status, s'.order, init[key], key)
  {
    SerialFrame(s.rpcs, s.status, Unlock(lockOf, s, r).status, s.order, init[key], key);
  }

  lemma FineLeave(lockOf: nat -> nat, init: map<nat, Content>, s: Server, r: nat)
    requires Fine(lockOf, init, s) && May(lockOf, s, Leave(r))
    ensures Fine(lockOf, init, After(lockOf, s, Leave(r)))
  {
    UnlockKeeps(lockOf, s, r);
    forall key | key in init {
      UnlockKeepsSerial(lockOf, init, s, r, key);
    }
    hide Locked, Serial;
  }

  lemma CutKeepsSerial(lockOf: nat -> nat, init: map<nat, Content>, s: Server, r: nat, fr: Frame, key: nat)
    requires Locked(lockOf, s) && InOrder(init, s) && Holds(s, r) && s.rpcs[r].key in s.files && key in init
    requires Locked(lockOf, Unlock(lockOf, Put(s, r, fr), r))
    ensures var s' := Unlock(lockOf, Put(s, r, fr), r);
            key in s'.files && s'.files[key] == Serial(s'.rpcs, s'.status, s'.order, init[key], key)
  {
    PutKeepsLocks(lockOf, s, r, fr);
    PutKeepsSerial(lockOf, init, s, r, fr, key);
    hide Locked, Serial;
    UnlockKeepsSerial(lockOf, init, Put(s, r, fr), r, key);
  }

  lemma CutKeepsPrefixes(lockOf: nat -> nat, s: Server, r: nat, k: nat)
    requires |s.status| == |s.rpcs| && Prefixes(s) && May(lockOf, s, WriteCut(r, k))
    ensures Prefixes(After(lockOf, s, WriteCut(r, k)))
  {
    var ap, fr := s.status[r].applied, s.rpcs[r].frames[|s.status[r].applied|];
    var cut := fr.(data := fr.data[..k]);
    assert (ap + [cut])[..|ap|] == ap;
    assert PrefixOf(ap + [cut], s.rpcs[r].frames);
  }

  lemma FineCut(lockOf: nat -> nat, init: map<nat, Content>, s: Server, r: nat, k: nat)
    requires Fine(lockOf, init, s) && May(lockOf, s, WriteCut(r, k))
    ensures Fine(lockOf, init, After(lockOf, s, WriteCut(r, k)))
  {
    CutKeepsPrefixes(lockOf, s, r, k);
    var fr := s.rpcs[r].frames[|s.status[r].applied|];
    var cut := fr.(data := fr.data[..k]);
    PutKeepsLocks(lockOf, s, r, cut);
    UnlockKeeps(lockOf, Put(s, r, cut), r);
    forall key | key in init {
      CutKeepsSerial(lockOf, init, s, r, cut, key);
    }
    hide Locked, Serial, Prefixes;
  }

  ghost predicate IsServerRun(lockOf: nat -> nat, states: seq<Server>, moves: seq<Move>) {
    && |states| == |moves| + 1 && Begins(states[0])
    && forall k :: 0 <= k < |moves| ==>
                     May(lockOf, states[k], moves[k]) && states[k + 1] == After(lockOf, states[k], moves[k])
  }

  /** Serializability: in every interleaving of any number of Write RPCs, whichever function of
      the inode key picks the lock, every file is what running the RPCs one after another in lock
      order gives, an RPC that failed counting as the frames it applied. */
  lemma {:induction false} WritesAreSerializable(lockOf: nat -> nat, states: seq<Server>, moves: seq<Move>, k: nat)
    requires IsServerRun(lockOf, states, moves) && k < |states|
    ensures Fine(lockOf, states[0].files, states[k])
    ensures forall key :: key in states[0].files ==>
                            && key in states[k].files
                            && states[k].files[key] ==
                               Serial(states[k].rpcs, states[k].status, states[k].order, states[0].files[key], key)
  {
    if k > 0 {
      WritesAreSerializable(lockOf, states, moves, k - 1);
      hide Locked, Serial, Prefixes;
      var init, s := states[0].files, states[k - 1];
      match moves[k - 1] {
        case Acquire(r) => FineAcquire(lockOf, init, s, r);
        case WriteFrame(r) => FineWrite(lockOf, init, s, r);
        case WriteCut(r, b) => FineCut(lockOf, init, s, r, b);
        case Leave(r) => FineLeave(lockOf, init, s, r);
      }
    }
  }

  // ----- each RPC as one write -----

  /** What the application asked of a Write RPC. */
  datatype Request = Request(offset: nat, data: seq<Byte>)

  /** The requests carried out one after another as single writes of what landed of each. */
  ghost function OneByOne(rpcs: seq<Rpc>, reqs: seq<Request>, status: seq<Status>, order: seq<nat>, f: Content,
                          key: nat)
    : Content
    requires forall i :: 0 <= i < |order| ==> order[i] < |rpcs| && order[i] < |status| && order[i] < |reqs|
    requires forall r :: 0 <= r < |reqs| && r < |status| ==> FrameBytes(status[r].Applied()) <= |reqs[r].data|
  {
    if order == [] then f
    else
      var r := order[|order| - 1];
      var g := OneByOne(rpcs, reqs, status, order[..|order| - 1], f, key);
      if rpcs[r].key == key
      then Store(rpcs[r].append, g, Run(reqs[r].offset, reqs[r].data[..FrameBytes(status[r].Applied())]))
      else g
  }

  /** A prefix of the frames, cut short or not, amounts to one write. */
  lemma {:induction false} AppliedIsOneWrite(append: bool, f: Content, applied: seq<Frame>, frames: seq<Frame>,
                                             q: Request)
    requires Frames(frames, q.offset, q.data) && PrefixOf(applied, frames)
    ensures FrameBytes(applied) <= |q.data|
    ensures Stored(append, f, applied) == Store(append, f, Run(q.offset, q.data[..FrameBytes(applied)]))
  {
    hide Store;
    var n := |applied|;
    if applied <= frames {
      assert applied == frames[..n];
      FramesAreOneWrite(append, f, frames, q.offset, q.data, n);
    } else {
      var cut := applied[n - 1];
      FramesAreOneWrite(append, f, frames, q.offset, q.data, n - 1);
      assert FrameFits(frames, n - 1, q.offset, q.data);
      OneMorePiece(append, f, q.offset, q.data, FrameBytes(frames[..n - 1]), cut.data);
    }
  }

  lemma {:induction false} SerialIsOneByOne(s: Server, reqs: seq<Request>, order: seq<nat>, f: Content, key: nat)
    requires |s.status| == |s.rpcs| == |reqs| && forall i :: 0 <= i < |order| ==> order[i] < |s.rpcs|
    requires forall r :: 0 <= r < |reqs| ==> Frames(s.rpcs[r].frames, reqs[r].offset, reqs[r].data)
    requires forall r :: 0 <= r < |reqs| ==> PrefixOf(s.status[r].Applied(), s.rpcs[r].frames)
    requires forall r :: 0 <= r < |reqs| ==> FrameBytes(s.status[r].Applied()) <= |reqs[r].data|
    ensures Serial(s.rpcs, s.status, order, f, key) == OneByOne(s.rpcs, reqs, s.status, order, f, key)
  {
    if order != [] {
      var init, r := order[..|order| - 1], order[|order| - 1];
      SerialIsOneByOne(s, reqs, init, f, key);
      var g := Serial(s.rpcs, s.status, init, f, key);
      AppliedIsOneWrite(s.rpcs[r].append, g, s.status[r].Applied(), s.rpcs[r].frames, reqs[r]);
    }
  }

  lemma {:induction false} RequestsStay(lockOf: nat -> nat, states: seq<Server>, moves: seq<Move>, k: nat)
    requires IsServerRun(lockOf, states, moves) && k < |states|
    ensures states[k].rpcs == states[0].rpcs
  {
    if k > 0 {
      RequestsStay(lockOf, states, moves, k - 1);
    }
  }

  /** Put together, under the source's own stripes: at every moment of every interleaving each file
      is the result of whole client writes carried out one after another in lock order, each cut
      to the prefix that landed; no write is torn by another. */
  lemma {:induction false} WritesLandWhole(states: seq<Server>, moves: seq<Move>, reqs: seq<Request>, k: nat)
    requires IsServerRun(LockOf, states, moves) && k < |states|
    requires |reqs| == |states[0].rpcs|
    requires forall r :: 0 <= r < |reqs| ==> Frames(states[0].rpcs[r].frames, reqs[r].offset, reqs[r].data)
    ensures var s := states[k];
            && |s.status| == |s.rpcs| == |reqs|
            && (forall i :: 0 <= i < |s.order| ==> s.order[i] < |s.rpcs|)
            && (forall r :: 0 <= r < |reqs| ==> FrameBytes(s.status[r].Applied()) <= |reqs[r].data|)
            && forall key :: key in states[0].files ==>
                               && key in s.files
                               && s.files[key] == OneByOne(s.rpcs, reqs, s.status, s.order, states[0].files[key], key)
  {
    WritesAreSerializable(LockOf, states, moves, k);
    RequestsStay(LockOf, states, moves, k);
    var s := states[k];
    forall r | 0 <= r < |reqs|
      ensures FrameBytes(s.status[r].Applied()) <= |reqs[r].data|
    {
      AppliedIsOneWrite(false, [], s.status[r].Applied(), s.rpcs[r].frames, reqs[r]);
    }
    forall key | key in states[0].files
      ensures && key in s.files
              && s.files[key] == OneByOne(s.rpcs, reqs, s.status, s.order, states[0].files[key], key)
    {
      SerialIsOneByOne(s, reqs, s.order, states[0].files[key], key);
    }
  }
}
