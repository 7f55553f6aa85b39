/** The client's metadata cache: least-recently-used, with a lifetime per entry, checked against
    the history of what was inserted, invalidated and looked up. */
module MetaCache {
  import opened FileModel

  datatype Stat = Stat(mode: nat, size: nat, mtime: int)

  /** A positive entry, or a path known not to exist. */
  datatype Answer = Found(stat: Stat) | NotFound

  datatype Slot = Slot(path: Path, answer: Answer, expires: nat)

  /** `Path::parent`. */
  type Parents = Path -> Option<Path>

  // ----- the history -----

  /** `gen` is the reconnect generation at the time; `hit` says whether a lookup answered. */
  datatype Event =
    | Inserted(path: Path, answer: Answer, expires: nat, gen: nat)
    | Invalidated(path: Path)
    | Cleared
    | Looked(path: Path, now: nat, hit: bool)

  /** The event makes whatever was known of `path` before it void. */
  predicate Ends(parent: Parents, e: Event, path: Path) {
    match e
    case Inserted(p, _, _, _) => p == path
    case Invalidated(p) => p == path || parent(p) == Some(path)
    case Cleared => true
    case Looked(_, _, _) => false
  }

  /** The insert that an unbounded cache without lifetimes would answer from. */
  function Current(parent: Parents, log: seq<Event>, path: Path): (c: Option<Event>)
    ensures c.Some? ==> c.value.Inserted? && c.value.path == path
  {
    if log == [] then None
    else
      var e := log[|log| - 1];
      if !Ends(parent, e, path) then Current(parent, log[..|log| - 1], path)
      else if e.Inserted? then Some(e)
      else None
  }

  /** `log[j]` is the latest insert for `path`, with no later invalidation of the path or of a
      direct child of it and no later clear. */
  ghost predicate Stands(parent: Parents, log: seq<Event>, path: Path, j: nat) {
    && j < |log| && log[j].Inserted? && log[j].path == path
    && forall k :: j < k < |log| ==>
                     && !log[k].Cleared?
                     && (log[k].Inserted? ==> log[k].path != path)
                     && (log[k].Invalidated? ==> log[k].path != path && parent(log[k].path) != Some(path))
  }

  lemma {:induction false} CurrentStands(parent: Parents, log: seq<Event>, path: Path) returns (j: nat)
    requires Current(parent, log, path).Some?
    ensures Stands(parent, log, path, j) && log[j] == Current(parent, log, path).value
  {
    var init := log[..|log| - 1];
    if Ends(parent, log[|log| - 1], path) {
      j := |log| - 1;
    } else {
      j := CurrentStands(parent, init, path);
      assert forall k :: 0 <= k < |init| ==> init[k] == log[k];
    }
  }

  lemma {:induction false} StandingIsCurrent(parent: Parents, log: seq<Event>, path: Path, j: nat)
    requires Stands(parent, log, path, j)
    ensures Current(parent, log, path) == Some(log[j])
  {
    var init := log[..|log| - 1];
    if j < |log| - 1 {
      assert forall k :: 0 <= k < |init| ==> init[k] == log[k];
      StandingIsCurrent(parent, init, path, j);
    }
  }

  lemma {:induction false} CurrentIffStands(parent: Parents, log: seq<Event>, path: Path, e: Event)
    ensures Current(parent, log, path) == Some(e) <==> exists j: nat :: Stands(parent, log, path, j) && log[j] == e
  {
    if Current(parent, log, path) == Some(e) {
      var j := CurrentStands(parent, log, path);
    }
    forall j: nat | Stands(parent, log, path, j) {
      StandingIsCurrent(parent, log, path, j);
    }
  }

  predicate Touches(e: Event, path: Path) {
    (e.Inserted? && e.path == path) || (e.Looked? && e.hit && e.path == path)
  }

  /** The other paths used since `path` was last used. */
  function Others(log: seq<Event>, path: Path): set<Path> {
    if log == [] then {}
    else
      var init, e := log[..|log| - 1], log[|log| - 1];
      if Touches(e, path) then {}
      else if e.Inserted? || (e.Looked? && e.hit) then Others(init, path) + {e.path}
      else Others(init, path)
  }

  lemma CurrentPush(parent: Parents, log: seq<Event>, e: Event, path: Path)
    ensures Current(parent, log + [e], path)
         == if !Ends(parent, e, path) then Current(parent, log, path) else if e.Inserted? then Some(e) else None
  {
    assert (log + [e])[..|log|] == log;
  }

  /** After an invalidation nothing is known of the path and of its parent, and as much as before of
      every other path. */
  lemma {:induction false} InvalidationVoids(parent: Parents, log: seq<Event>, path: Path)
    ensures var more := log + [Invalidated(path)];
            && Current(parent, more, path).None?
            && (parent(path).Some? ==> Current(parent, more, parent(path).value).None?)
            && forall p :: p != path && Some(p) != parent(path) ==> Current(parent, more, p) == Current(parent, log, p)
  {
    forall p {
      CurrentPush(parent, log, Invalidated(path), p);
    }
  }

  lemma InsertionReplaces(parent: Parents, log: seq<Event>, e: Event)
    requires e.Inserted?
    ensures forall p :: Current(parent, log + [e], p) == if p == e.path then Some(e) else Current(parent, log, p)
  {
    forall p {
      CurrentPush(parent, log, e, p);
    }
  }

  lemma OthersPush(log: seq<Event>, e: Event, path: Path)
    ensures Others(log + [e], path)
         == if Touches(e, path) then {}
            else if e.Inserted? || (e.Looked? && e.hit) then Others(log, path) + {e.path}
            else Others(log, path)
  {
    assert (log + [e])[..|log|] == log;
  }

  /** `log[k]` is an insert of `p` or a lookup of it that answered. */
  predicate Used(log: seq<Event>, k: nat, p: Path) {
    && k < |log|
    && match log[k]
       case Inserted(q, _, _, _) => q == p
       case Looked(q, _, hit) => hit && q == p
       case _ => false
  }

  /** `p` was used at `k`, and `path` not since. */
  ghost predicate UsedSince(log: seq<Event>, k: nat, p: Path, path: Path) {
    Used(log, k, p) && forall j :: k < j < |log| ==> !Used(log, j, path)
  }

  lemma {:induction false} OthersIff(log: seq<Event>, path: Path, p: Path)
    ensures p in Others(log, path) <==> p != path && exists k: nat :: UsedSince(log, k, p, path)
  {
    if log != [] {
      var init, last := log[..|log| - 1], |log| - 1;
      OthersIff(init, path, p);
      assert forall k, q :: 0 <= k < last ==> (Used(init, k, q) <==> Used(log, k, q));
      if k: nat :| UsedSince(init, k, p, path) {
        assert !Used(log, last, path) ==> UsedSince(log, k, p, path);
      }
      if k: nat :| UsedSince(log, k, p, path) {
        assert k < last ==> UsedSince(init, k, p, path);
      }
      assert Used(log, last, p) ==> UsedSince(log, last, p, path);
    }
  }

  // ----- the list, least recently used first -----

  function Find(lru: seq<Slot>, path: Path): (i: Option<nat>)
    ensures i.Some? ==> i.value < |lru| && lru[i.value].path == path
    ensures i.None? ==> forall j :: 0 <= j < |lru| ==> lru[j].path != path
  {
    if lru == [] then None
    else if lru[|lru| - 1].path == path then Some(|lru| - 1)
    else Find(lru[..|lru| - 1], path)
  }

  /** `LruCache::pop`. */
  function Without(lru: seq<Slot>, path: Path): seq<Slot> {
    match Find(lru, path)
    case None => lru
    case Some(i) => lru[..i] + lru[i + 1..]
  }

  /** `LruCache::put`: the entry becomes the most recent; a new one at capacity pushes the least
      recent out. */
  function Put(cap: nat, lru: seq<Slot>, s: Slot): seq<Slot>
    requires cap > 0
  {
    var rest := Without(lru, s.path);
    (if |rest| >= cap then rest[1..] else rest) + [s]
  }

  ghost predicate Distinct(lru: seq<Slot>) {
    forall i, j :: 0 <= i < j < |lru| ==> lru[i].path != lru[j].path
  }

  ghost predicate Holds(lru: seq<Slot>, path: Path) {
    exists i :: 0 <= i < |lru| && lru[i].path == path
  }

  function Paths(lru: seq<Slot>): set<Path> {
    set i | 0 <= i < |lru| :: lru[i].path
  }

  // ----- agreement -----

  ghost predicate SlotStands(parent: Parents, log: seq<Event>, s: Slot) {
    var c := Current(parent, log, s.path);
    c.Some? && c.value.answer == s.answer && c.value.expires == s.expires
  }

  /** Every entry is what its history says. */
  ghost predicate Sound(parent: Parents, log: seq<Event>, lru: seq<Slot>) {
    forall i :: 0 <= i < |lru| ==> SlotStands(parent, log, lru[i])
  }

  /** Whatever is behind an entry was used after it. */
  ghost predicate Recent(log: seq<Event>, lru: seq<Slot>) {
    forall i, j :: 0 <= i < j < |lru| ==> lru[j].path in Others(log, lru[i].path)
  }

  /** What the history holds of `path` is cached, has expired, or was pushed out by as many other
      paths as the cache can hold. */
  ghost predicate Kept(parent: Parents, cap: nat, log: seq<Event>, lru: seq<Slot>, clock: nat, path: Path) {
    var c := Current(parent, log, path);
    c.Some? ==> Holds(lru, path) || c.value.expires <= clock || |Others(log, path)| >= cap
  }

  ghost predicate Agrees(parent: Parents, cap: nat, log: seq<Event>, lru: seq<Slot>, clock: nat) {
    && cap > 0 && |lru| <= cap && Distinct(lru)
    && Sound(parent, log, lru) && Recent(log, lru)
    && forall path :: Kept(parent, cap, log, lru, clock, path)
  }

  lemma WithoutKeeps(log: seq<Event>, lru: seq<Slot>, path: Path)
    requires Distinct(lru) && Recent(log, lru)
    ensures var rest := Without(lru, path);
            && Distinct(rest) && Recent(log, rest) && |rest| <= |lru| && !Holds(rest, path)
            && (forall i :: 0 <= i < |rest| ==> rest[i] in lru)
            && (forall i :: 0 <= i < |lru| && lru[i].path != path ==> lru[i] in rest)
  {
    hide Others, Find;
    var rest := Without(lru, path);
    if Find(lru, path).Some? {
      var k := Find(lru, path).value;
      assert forall i :: 0 <= i < k ==> rest[i] == lru[i];
      assert forall i :: k <= i < |rest| ==> rest[i] == lru[i + 1];
      assert forall i :: k < i < |lru| ==> lru[i] == rest[i - 1];
    }
  }

  lemma HoldsWithout(log: seq<Event>, lru: seq<Slot>, path: Path, p: Path)
    requires Distinct(lru) && Recent(log, lru) && p != path
    ensures Holds(Without(lru, path), p) <==> Holds(lru, p)
  {
    WithoutKeeps(log, lru, path);
    if Holds(lru, p) {
      var i :| 0 <= i < |lru| && lru[i].path == p;
      assert lru[i] in Without(lru, path);
    }
  }

  lemma SoundWithout(parent: Parents, log: seq<Event>, e: Event, lru: seq<Slot>, rest: seq<Slot>)
    requires Sound(parent, log, lru) && forall i :: 0 <= i < |rest| ==> rest[i] in lru
    requires forall i :: 0 <= i < |rest| ==> !Ends(parent, e, rest[i].path)
    ensures Sound(parent, log + [e], rest)
  {
    forall i | 0 <= i < |rest|
      ensures SlotStands(parent, log + [e], rest[i])
    {
      assert SlotStands(parent, log, rest[i]);
      CurrentPush(parent, log, e, rest[i].path);
    }
  }

  lemma RecentQuiet(log: seq<Event>, e: Event, lru: seq<Slot>)
    requires Recent(log, lru) && forall path :: !Touches(e, path)
    ensures Recent(log + [e], lru)
  {
    forall i, j | 0 <= i < j < |lru|
      ensures lru[j].path in Others(log + [e], lru[i].path)
    {
      OthersPush(log, e, lru[i].path);
    }
  }

  lemma RecentPush(log: seq<Event>, e: Event, rest: seq<Slot>, s: Slot)
    requires Recent(log, rest) && Touches(e, s.path) && !Holds(rest, s.path)
    ensures Recent(log + [e], rest + [s])
  {
    var lru := rest + [s];
    forall i, j | 0 <= i < j < |lru|
      ensures lru[j].path in Others(log + [e], lru[i].path)
    {
      OthersPush(log, e, rest[i].path);
    }
  }

  lemma {:induction false} PathsCount(lru: seq<Slot>)
    requires Distinct(lru)
    ensures |Paths(lru)| == |lru|
  {
    if lru != [] {
      var init, s := lru[..|lru| - 1], lru[|lru| - 1];
      PathsCount(init);
      assert Paths(lru) == Paths(init) + {s.path};
    }
  }

  lemma SubsetSize<T>(a: set<T>, b: set<T>)
    requires a <= b
    ensures |a| <= |b|
  {
    assert b == a + (b - a);
  }

  /** The entry pushed out has been unused while the cache filled with others. */
  lemma {:induction false} PushedOut(log: seq<Event>, e: Event, lru: seq<Slot>, s: Slot)
    requires Distinct(lru) && Recent(log, lru) && lru != [] && !Holds(lru, s.path) && Touches(e, s.path)
    ensures |Others(log + [e], lru[0].path)| >= |lru|
  {
    var others := Paths(lru[1..]);
    PathsCount(lru[1..]);
    OthersPush(log, e, lru[0].path);
    assert others <= Others(log, lru[0].path);
    SubsetSize(others + {s.path}, Others(log + [e], lru[0].path));
  }

  // ----- what every operation keeps -----

  lemma AtCapacity(cap: nat, lru: seq<Slot>, path: Path)
    requires |lru| <= cap && |Without(lru, path)| >= cap
    ensures Without(lru, path) == lru && |lru| == cap && !Holds(lru, path)
  {
  }

  lemma PutHolds(log: seq<Event>, cap: nat, lru: seq<Slot>, s: Slot, p: Path)
    requires cap > 0 && |lru| <= cap && Distinct(lru) && Recent(log, lru)
    ensures Holds(Put(cap, lru, s), s.path)
    ensures p != s.path && Holds(lru, p) ==>
              Holds(Put(cap, lru, s), p) || (!Holds(lru, s.path) && |lru| == cap && lru[0].path == p)
  {
    var rest, put := Without(lru, s.path), Put(cap, lru, s);
    WithoutKeeps(log, lru, s.path);
    assert put[|put| - 1] == s;
    if |rest| >= cap {
      AtCapacity(cap, lru, s.path);
    }
    if p != s.path && Holds(lru, p) {
      HoldsWithout(log, lru, s.path, p);
      hide Recent, Distinct, Without, Find;
      var i :| 0 <= i < |rest| && rest[i].path == p;
      if |rest| >= cap {
        assert i > 0 ==> put[i - 1] == rest[i];
      } else {
        assert put[i] == rest[i];
      }
    }
  }

  lemma DistinctPush(rest: seq<Slot>, s: Slot)
    requires Distinct(rest) && !Holds(rest, s.path)
    ensures Distinct(rest + [s])
  {
  }

  lemma TailKeeps(log: seq<Event>, lru: seq<Slot>, path: Path)
    requires lru != [] && Distinct(lru) && Recent(log, lru) && !Holds(lru, path)
    ensures Distinct(lru[1..]) && Recent(log, lru[1..]) && !Holds(lru[1..], path)
  {
    hide Others;
    assert forall i :: 0 <= i < |lru| - 1 ==> lru[1..][i] == lru[i + 1];
  }

  lemma PutKeepsOrder(log: seq<Event>, e: Event, cap: nat, lru: seq<Slot>, s: Slot)
    requires cap > 0 && |lru| <= cap && Distinct(lru) && Recent(log, lru) && Touches(e, s.path)
    ensures var put := Put(cap, lru, s); |put| <= cap && Distinct(put) && Recent(log + [e], put)
  {
    hide Without, Others, Distinct, Recent, Holds, Touches;
    WithoutKeeps(log, lru, s.path);
    var rest := Without(lru, s.path);
    if |rest| >= cap {
      AtCapacity(cap, lru, s.path);
      TailKeeps(log, rest, s.path);
      RecentPush(log, e, rest[1..], s);
      DistinctPush(rest[1..], s);
    } else {
      RecentPush(log, e, rest, s);
      DistinctPush(rest, s);
    }
  }

  lemma PutKeepsSound(parent: Parents, log: seq<Event>, e: Event, cap: nat, lru: seq<Slot>, s: Slot)
    requires cap > 0 && |lru| <= cap && Distinct(lru) && Recent(log, lru) && Sound(parent, log, lru)
    requires forall p :: Ends(parent, e, p) ==> p == s.path
    requires SlotStands(parent, log + [e], s)
    ensures Sound(parent, log + [e], Put(cap, lru, s))
  {
    WithoutKeeps(log, lru, s.path);
    var rest := Without(lru, s.path);
    var kept := if |rest| >= cap then rest[1..] else rest;
    SoundWithout(parent, log, e, lru, kept);
  }

  lemma PutKeepsKept(parent: Parents, log: seq<Event>, e: Event, cap: nat, lru: seq<Slot>, s: Slot,
                     clock: nat, later: nat, p: Path)
    requires Agrees(parent, cap, log, lru, clock) && clock <= later && Touches(e, s.path)
    requires forall q :: Ends(parent, e, q) ==> q == s.path
    ensures Kept(parent, cap, log + [e], Put(cap, lru, s), later, p)
  {
    PutHolds(log, cap, lru, s, p);
    if p != s.path {
      CurrentPush(parent, log, e, p);
      OthersPush(log, e, p);
      assert Kept(parent, cap, log, lru, clock, p);
      if |lru| == cap && lru[0].path == p && !Holds(lru, s.path) {
        PushedOut(log, e, lru, s);
      }
      SubsetSize(Others(log, p), Others(log + [e], p));
    }
  }

  /** Inserting, and promoting on a hit. */
  lemma {:induction false} PutAgrees(parent: Parents, log: seq<Event>, e: Event, cap: nat, lru: seq<Slot>, s: Slot,
                                     clock: nat, later: nat)
    requires Agrees(parent, cap, log, lru, clock) && clock <= later && Touches(e, s.path)
    requires forall q :: Ends(parent, e, q) ==> q == s.path
    requires SlotStands(parent, log + [e], s)
    ensures Agrees(parent, cap, log + [e], Put(cap, lru, s), later)
  {
    PutKeepsOrder(log, e, cap, lru, s);
    PutKeepsSound(parent, log, e, cap, lru, s);
    forall p
      ensures Kept(parent, cap, log + [e], Put(cap, lru, s), later, p)
    {
      PutKeepsKept(parent, log, e, cap, lru, s, clock, later, p);
    }
  }

  /** Removing entries that the event ends, or that have expired. */
  lemma DropAgrees(parent: Parents, log: seq<Event>, e: Event, cap: nat, lru: seq<Slot>, rest: seq<Slot>, clock: nat,
                   later: nat)
    requires Agrees(parent, cap, log, lru, clock) && clock <= later
    requires e.Invalidated? || e.Cleared? || (e.Looked? && !e.hit)
    requires |rest| <= |lru| && Distinct(rest) && Recent(log, rest)
    requires forall i :: 0 <= i < |rest| ==> rest[i] in lru && !Ends(parent, e, rest[i].path)
    requires forall i :: 0 <= i < |lru| && !Holds(rest, lru[i].path) ==>
                           Ends(parent, e, lru[i].path) || lru[i].expires <= later
    ensures Agrees(parent, cap, log + [e], rest, later)
  {
    RecentQuiet(log, e, rest);
    SoundWithout(parent, log, e, lru, rest);
    forall p
      ensures Kept(parent, cap, log + [e], rest, later, p)
    {
      CurrentPush(parent, log, e, p);
      OthersPush(log, e, p);
      assert Kept(parent, cap, log, lru, clock, p);
      if !Ends(parent, e, p) && Holds(lru, p) && !Holds(rest, p) {
        var i :| 0 <= i < |lru| && lru[i].path == p;
        assert SlotStands(parent, log, lru[i]);
      }
    }
  }

  lemma InsertAgrees(parent: Parents, log: seq<Event>, cap: nat, lru: seq<Slot>, s: Slot, gen: nat, clock: nat,
                     now: nat)
    requires Agrees(parent, cap, log, lru, clock) && clock <= now
    ensures Agrees(parent, cap, log + [Inserted(s.path, s.answer, s.expires, gen)], Put(cap, lru, s), now)
  {
    var e := Inserted(s.path, s.answer, s.expires, gen);
    CurrentPush(parent, log, e, s.path);
    PutAgrees(parent, log, e, cap, lru, s, clock, now);
  }

  lemma HitAgrees(parent: Parents, log: seq<Event>, cap: nat, lru: seq<Slot>, i: nat, clock: nat, now: nat)
    requires Agrees(parent, cap, log, lru, clock) && clock <= now && i < |lru|
    ensures Agrees(parent, cap, log + [Looked(lru[i].path, now, true)], Put(cap, lru, lru[i]), now)
  {
    var e := Looked(lru[i].path, now, true);
    assert SlotStands(parent, log, lru[i]);
    CurrentPush(parent, log, e, lru[i].path);
    PutAgrees(parent, log, e, cap, lru, lru[i], clock, now);
  }

  lemma {:induction false} MissAgrees(parent: Parents, log: seq<Event>, cap: nat, lru: seq<Slot>, path: Path,
                                      clock: nat, now: nat)
    requires Agrees(parent, cap, log, lru, clock) && clock <= now
    requires forall i :: 0 <= i < |lru| && lru[i].path == path ==> lru[i].expires <= now
    ensures Agrees(parent, cap, log + [Looked(path, now, false)], Without(lru, path), now)
  {
    WithoutKeeps(log, lru, path);
    forall i | 0 <= i < |lru| && !Holds(Without(lru, path), lru[i].path)
      ensures lru[i].expires <= now
    {
      GoneOnlyIf(log, lru, path, i);
    }
    DropAgrees(parent, log, Looked(path, now, false), cap, lru, Without(lru, path), clock, now);
  }

  lemma GoneOnlyIf(log: seq<Event>, lru: seq<Slot>, path: Path, i: nat)
    requires Distinct(lru) && Recent(log, lru) && i < |lru|
    ensures Holds(Without(lru, path), lru[i].path) <==> lru[i].path != path
  {
    WithoutKeeps(log, lru, path);
    if lru[i].path != path {
      HoldsWithout(log, lru, path, lru[i].path);
    }
  }

  /** The list after `invalidate`: the path and its parent are gone. */
  function Purged(parent: Parents, lru: seq<Slot>, path: Path): seq<Slot> {
    var rest := Without(lru, path);
    if parent(path).Some? then Without(rest, parent(path).value) else rest
  }

  lemma {:induction false} InvalidateAgrees(parent: Parents, log: seq<Event>, cap: nat, lru: seq<Slot>, path: Path,
                                            clock: nat)
    requires Agrees(parent, cap, log, lru, clock)
    ensures Agrees(parent, cap, log + [Invalidated(path)], Purged(parent, lru, path), clock)
  {
    var rest := Without(lru, path);
    WithoutKeeps(log, lru, path);
    if parent(path).Some? {
      WithoutKeeps(log, rest, parent(path).value);
    }
    forall i | 0 <= i < |lru| && !Holds(Purged(parent, lru, path), lru[i].path)
      ensures Ends(parent, Invalidated(path), lru[i].path)
    {
      GoneOnlyIf(log, lru, path, i);
      if parent(path).Some? && lru[i].path != parent(path).value {
        HoldsWithout(log, rest, parent(path).value, lru[i].path);
      }
    }
    DropAgrees(parent, log, Invalidated(path), cap, lru, Purged(parent, lru, path), clock, clock);
  }

  lemma ClearAgrees(parent: Parents, log: seq<Event>, cap: nat, lru: seq<Slot>, clock: nat)
    requires Agrees(parent, cap, log, lru, clock)
    ensures Agrees(parent, cap, log + [Cleared], [], clock)
  {
    DropAgrees(parent, log, Cleared, cap, lru, [], clock, clock);
  }

  // ----- the cache itself -----

  class Cache {
    const parent: Parents
    const capacity: nat
    const posTtl: nat
    const negTtl: nat
    const dirTtl: nat
    var lru: seq<Slot>
    ghost var log: seq<Event>
    ghost var clock: nat

    ghost predicate Valid()
      reads this
    {
      Agrees(parent, capacity, log, lru, clock)
    }

    constructor (parent: Parents, maxEntries: nat, posTtl: nat, negTtl: nat, dirTtl: nat)
      ensures Valid() && lru == [] && log == [] && clock == 0
      ensures this.parent == parent && capacity == if maxEntries == 0 then 8192 else maxEntries
      ensures this.posTtl == posTtl && this.negTtl == negTtl && this.dirTtl == dirTtl
    {
      this.parent := parent;
      capacity := if maxEntries == 0 then 8192 else maxEntries;
      this.posTtl, this.negTtl, this.dirTtl := posTtl, negTtl, dirTtl;
      lru, log, clock := [], [], 0;
    }

    /** A hit is exactly the latest insert that still stands, younger than its lifetime. A miss
        means there is none, it has expired, or as many other paths as the cache holds have been
        used since. */
    method Get(path: Path, now: nat) returns (r: Option<Answer>)
      requires Valid() && clock <= now
      modifies `lru, `log, `clock
      ensures Valid() && clock == now && log == old(log) + [Looked(path, now, r.Some?)]
      ensures r.Some? ==>
                var c := Current(parent, old(log), path);
                c.Some? && c.value.answer == r.value && now < c.value.expires
      ensures r.None? ==>
                var c := Current(parent, old(log), path);
                c.None? || c.value.expires <= now || |Others(old(log), path)| >= capacity
    {
      var i := Find(lru, path);
      if i.None? {
        assert Kept(parent, capacity, log, lru, clock, path);
        MissAgrees(parent, log, capacity, lru, path, clock, now);
        log, clock := log + [Looked(path, now, false)], now;
        return None;
      }
      var slot := lru[i.value];
      assert SlotStands(parent, log, slot);
      if now >= slot.expires {
        MissAgrees(parent, log, capacity, lru, path, clock, now);
        lru := Without(lru, path);
        log, clock := log + [Looked(path, now, false)], now;
        return None;
      }
      HitAgrees(parent, log, capacity, lru, i.value, clock, now);
      lru := Put(capacity, lru, slot);
      log, clock := log + [Looked(path, now, true)], now;
      return Some(slot.answer);
    }

    method Insert(path: Path, stat: Stat, isDir: bool, now: nat, ghost gen: nat)
      requires Valid() && clock <= now
      modifies `lru, `log, `clock
      ensures Valid() && clock == now
      ensures log == old(log) + [Inserted(path, Found(stat), now + if isDir then dirTtl else posTtl, gen)]
      ensures forall p :: Current(parent, log, p)
                       == if p == path then Some(log[|old(log)|]) else Current(parent, old(log), p)
    {
      InsertionReplaces(parent, log, Inserted(path, Found(stat), now + if isDir then dirTtl else posTtl, gen));
      var ttl := if isDir then dirTtl else posTtl;
      InsertAgrees(parent, log, capacity, lru, Slot(path, Found(stat), now + ttl), gen, clock, now);
      lru := Put(capacity, lru, Slot(path, Found(stat), now + ttl));
      log, clock := log + [Inserted(path, Found(stat), now + ttl, gen)], now;
    }

    method InsertNegative(path: Path, now: nat, ghost gen: nat)
      requires Valid() && clock <= now
      modifies `lru, `log, `clock
      ensures Valid() && clock == now && log == old(log) + [Inserted(path, NotFound, now + negTtl, gen)]
      ensures forall p :: Current(parent, log, p)
                       == if p == path then Some(log[|old(log)|]) else Current(parent, old(log), p)
    {
      InsertionReplaces(parent, log, Inserted(path, NotFound, now + negTtl, gen));
      InsertAgrees(parent, log, capacity, lru, Slot(path, NotFound, now + negTtl), gen, clock, now);
      lru := Put(capacity, lru, Slot(path, NotFound, now + negTtl));
      log, clock := log + [Inserted(path, NotFound, now + negTtl, gen)], now;
    }

    method Invalidate(path: Path)
      requires Valid()
      modifies `lru, `log
      ensures Valid() && log == old(log) + [Invalidated(path)]
      ensures Current(parent, log, path).None?
      ensures parent(path).Some? ==> Current(parent, log, parent(path).value).None?
      ensures forall p :: p != path && Some(p) != parent(path) ==>
                            Current(parent, log, p) == Current(parent, old(log), p)
    {
      InvalidationVoids(parent, log, path);
      InvalidateAgrees(parent, log, capacity, lru, path, clock);
      lru := Without(lru, path);
      if parent(path).Some? {
        lru := Without(lru, parent(path).value);
      }
      log := log + [Invalidated(path)];
    }

    method Clear()
      requires Valid()
      modifies `lru, `log
      ensures Valid() && log == old(log) + [Cleared]
      ensures forall p :: Current(parent, log, p).None?
    {
      forall p {
        CurrentPush(parent, log, Cleared, p);
      }
      ClearAgrees(parent, log, capacity, lru, clock);
      lru, log := [], log + [Cleared];
    }
  }
}
