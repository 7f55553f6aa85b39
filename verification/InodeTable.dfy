/** The client's two-way map between FUSE inode numbers and remote paths. */
module InodeTable {
  import opened FileModel

  const ROOT_INO: nat := 1

  datatype Inodes = Inodes(pathOf: map<nat, Path>, inoOf: map<Path, nat>, next: nat)

  function Rooted(root: Path): Inodes {
    Inodes(map[ROOT_INO := root], map[root := ROOT_INO], ROOT_INO + 1)
  }

  function Alloc(t: Inodes, path: Path): Inodes {
    if path in t.inoOf then t
    else Inodes(t.pathOf[t.next := path], t.inoOf[path := t.next], t.next + 1)
  }

  function Removed(t: Inodes, path: Path): Inodes {
    if path !in t.inoOf then t
    else t.(inoOf := t.inoOf - {path}, pathOf := t.pathOf - {t.inoOf[path]})
  }

  function Renamed(t: Inodes, src: Path, dst: Path): Inodes {
    if src !in t.inoOf then t
    else t.(inoOf := (t.inoOf - {src})[dst := t.inoOf[src]], pathOf := t.pathOf[t.inoOf[src] := dst])
  }

  /** Every path but `paths` and every number but `inos` stands for what it stood for. */
  ghost predicate Kept(t: Inodes, t': Inodes, paths: set<Path>, inos: set<nat>) {
    && (forall p :: p !in paths ==>
                      (p in t'.inoOf <==> p in t.inoOf) && (p in t.inoOf ==> t'.inoOf[p] == t.inoOf[p]))
    && (forall i :: i !in inos ==>
                      (i in t'.pathOf <==> i in t.pathOf) && (i in t.pathOf ==> t'.pathOf[i] == t.pathOf[i]))
  }

  class Table {
    var inoToPath: map<nat, Path>
    var pathToIno: map<Path, nat>
    var next: nat

    ghost function View(): Inodes
      reads this
    {
      Inodes(inoToPath, pathToIno, next)
    }

    ghost predicate Valid()
      reads this
    {
      Coherent(View())
    }

    constructor (root: Path)
      ensures Valid() && View() == Rooted(root)
    {
      inoToPath, pathToIno, next := map[ROOT_INO := root], map[root := ROOT_INO], ROOT_INO + 1;
    }

    method GetOrAlloc(path: Path) returns (ino: nat)
      requires Valid()
      modifies this
      ensures Valid() && View() == Alloc(old(View()), path)
      ensures path in pathToIno && ino == pathToIno[path] && ino in inoToPath && inoToPath[ino] == path
      ensures path in old(pathToIno) ==> ino == old(pathToIno)[path]
      ensures path !in old(pathToIno) ==> ino !in old(inoToPath)
      ensures Kept(old(View()), View(), {path}, {ino})
    {
      CoherentAfter(View(), Lookup(path));
      if path in pathToIno {
        return pathToIno[path];
      }
      ino := next;
      next := next + 1;
      inoToPath := inoToPath[ino := path];
      pathToIno := pathToIno[path := ino];
    }

    /** A path's own number leads back to the path. */
    method PathOf(ino: nat) returns (path: Option<Path>)
      requires Valid()
      ensures path.Some? <==> ino in inoToPath
      ensures forall p :: p in pathToIno && pathToIno[p] == ino ==> path == Some(p)
    {
      path := if ino in inoToPath then Some(inoToPath[ino]) else None;
    }

    method RemovePath(path: Path)
      requires Valid()
      modifies this
      ensures Valid() && View() == Removed(old(View()), path)
      ensures path !in pathToIno && (path in old(pathToIno) ==> old(pathToIno)[path] !in inoToPath)
      ensures Kept(old(View()), View(), {path}, if path in old(pathToIno) then {old(pathToIno)[path]} else {})
    {
      CoherentAfter(View(), Remove(path));
      if path in pathToIno {
        var ino := pathToIno[path];
        pathToIno := pathToIno - {path};
        inoToPath := inoToPath - {ino};
      }
    }

    method RenameIno(src: Path, dst: Path)
      requires Valid()
      modifies this
      ensures Valid() && View() == Renamed(old(View()), src, dst)
      ensures src in old(pathToIno) ==>
                var ino := old(pathToIno)[src];
                && dst in pathToIno && pathToIno[dst] == ino && ino in inoToPath && inoToPath[ino] == dst
                && (src != dst ==> src !in pathToIno)
                && Kept(old(View()), View(), {src, dst}, {ino})
      ensures src !in old(pathToIno) ==> View() == old(View())
    {
      CoherentAfter(View(), Rename(src, dst));
      if src in pathToIno {
        var ino := pathToIno[src];
        pathToIno := pathToIno - {src};
        inoToPath := inoToPath[ino := dst];
        pathToIno := pathToIno[dst := ino];
      }
    }
  }

  // ----- every run -----

  datatype Op = Lookup(path: Path) | Remove(path: Path) | Rename(src: Path, dst: Path)

  function After(t: Inodes, op: Op): Inodes {
    match op
    case Lookup(path) => Alloc(t, path)
    case Remove(path) => Removed(t, path)
    case Rename(src, dst) => Renamed(t, src, dst)
  }

  ghost predicate IsRun(root: Path, ts: seq<Inodes>, ops: seq<Op>) {
    && |ts| == |ops| + 1 && ts[0] == Rooted(root)
    && forall k :: 0 <= k < |ops| ==> ts[k + 1] == After(ts[k], ops[k])
  }

  /** A path's number leads back to the path, and no number in use is still to be given out. */
  ghost predicate Coherent(t: Inodes) {
    && (forall p :: p in t.inoOf ==> t.inoOf[p] in t.pathOf && t.pathOf[t.inoOf[p]] == p)
    && (forall i :: i in t.pathOf ==> i < t.next)
  }

  lemma CoherentAfter(t: Inodes, op: Op)
    requires Coherent(t)
    ensures Coherent(After(t, op)) && t.next <= After(t, op).next
  {
  }

  /** Numbers whose path now has another number, or none. */
  ghost function Stale(t: Inodes): set<nat> {
    set i | i in t.pathOf && !(t.pathOf[i] in t.inoOf && t.inoOf[t.pathOf[i]] == i)
  }

  /** The number a rename takes its path away from: the overwritten target's. */
  function Overwritten(t: Inodes, op: Op): set<nat> {
    if op.Rename? && op.src in t.inoOf && op.dst in t.inoOf && op.src != op.dst
    then {t.inoOf[op.dst]}
    else {}
  }

  lemma StaleAfter(t: Inodes, op: Op)
    requires Coherent(t)
    ensures Stale(After(t, op)) == Stale(t) + Overwritten(t, op)
  {
    match op {
      case Lookup(path) => StaleAlloc(t, path);
      case Remove(path) => StaleRemoved(t, path);
      case Rename(src, dst) => StaleRenamed(t, src, dst);
    }
  }

  lemma StaleAlloc(t: Inodes, path: Path)
    requires Coherent(t)
    ensures Stale(Alloc(t, path)) == Stale(t)
  {
  }

  lemma StaleRemoved(t: Inodes, path: Path)
    requires Coherent(t)
    ensures Stale(Removed(t, path)) == Stale(t)
  {
  }

  lemma StaleRenamed(t: Inodes, src: Path, dst: Path)
    requires Coherent(t)
    ensures Stale(Renamed(t, src, dst)) == Stale(t) + Overwritten(t, Rename(src, dst))
  {
  }

  /** In every run, rename over an existing path included: two paths never share a number, looking
      a path's number up gives the path back, and a number is below the counter. */
  lemma {:induction false} RunIsCoherent(root: Path, ts: seq<Inodes>, ops: seq<Op>, k: nat)
    requires IsRun(root, ts, ops) && k < |ts|
    ensures Coherent(ts[k])
    ensures forall p, q :: p in ts[k].inoOf && q in ts[k].inoOf && p != q ==> ts[k].inoOf[p] != ts[k].inoOf[q]
  {
    if k > 0 {
      RunIsCoherent(root, ts, ops, k - 1);
      CoherentAfter(ts[k - 1], ops[k - 1]);
    }
  }

  lemma {:induction false} NextGrows(root: Path, ts: seq<Inodes>, ops: seq<Op>, j: nat, k: nat)
    requires IsRun(root, ts, ops) && j <= k < |ts|
    ensures ts[j].next <= ts[k].next
    decreases k
  {
    if j < k {
      NextGrows(root, ts, ops, j, k - 1);
      RunIsCoherent(root, ts, ops, k - 1);
      CoherentAfter(ts[k - 1], ops[k - 1]);
    }
  }

  /** A number given to a new path was never in use before, whatever was removed meanwhile. */
  lemma {:induction false} NumbersAreNeverReissued(root: Path, ts: seq<Inodes>, ops: seq<Op>, j: nat, k: nat,
                                                   path: Path)
    requires IsRun(root, ts, ops) && j <= k < |ops|
    requires ops[k] == Lookup(path) && path !in ts[k].inoOf
    ensures path in ts[k + 1].inoOf && ts[k + 1].inoOf[path] !in ts[j].pathOf
  {
    NextGrows(root, ts, ops, j, k);
    RunIsCoherent(root, ts, ops, j);
  }

  // ----- the callbacks -----

  /** What the kernel asks: entries by their directory's number and their name, which is never empty. */
  datatype Call =
    | LookupAt(parent: nat, name: string)
    | GetAttr(ino: nat)
    | UnlinkAt(parent: nat, name: string)
    | RenameAt(parent: nat, name: string, newParent: nat, newName: string)

  /** `child_path`. */
  function ChildPath(parent: Path, name: string): Path {
    if parent == "/" then "/" + name
    else if parent == "" || parent[|parent| - 1] == '/' then parent + name
    else parent + "/" + name
  }

  predicate Named(c: Call) {
    match c
    case LookupAt(_, name) => name != ""
    case GetAttr(_) => true
    case UnlinkAt(_, name) => name != ""
    case RenameAt(_, name, _, newName) => name != "" && newName != ""
  }

  /** The table operation behind a successful call; a number nobody knows gets ENOENT. */
  function OpOf(t: Inodes, c: Call): Option<Op> {
    match c
    case LookupAt(parent, name) =>
      if parent in t.pathOf then Some(Lookup(ChildPath(t.pathOf[parent], name))) else None
    case GetAttr(ino) =>
      if ino in t.pathOf then Some(Lookup(t.pathOf[ino])) else None
    case UnlinkAt(parent, name) =>
      if parent in t.pathOf then Some(Remove(ChildPath(t.pathOf[parent], name))) else None
    case RenameAt(parent, name, newParent, newName) =>
      if parent in t.pathOf && newParent in t.pathOf
      then Some(Rename(ChildPath(t.pathOf[parent], name), ChildPath(t.pathOf[newParent], newName)))
      else None
  }

  function Served(t: Inodes, c: Call): Inodes {
    match OpOf(t, c)
    case None => t
    case Some(op) => After(t, op)
  }

  ghost predicate IsSession(root: Path, ts: seq<Inodes>, cs: seq<Call>) {
    && |ts| == |cs| + 1 && ts[0] == Rooted(root)
    && forall k :: 0 <= k < |cs| ==> Named(cs[k]) && ts[k + 1] == Served(ts[k], cs[k])
  }

  /** The path reached from `root` by going down the named entries. */
  function Walked(root: Path, names: seq<string>): Path {
    if names == [] then root else ChildPath(Walked(root, names[..|names| - 1]), names[|names| - 1])
  }

  predicate Entries(names: seq<string>) {
    forall i :: 0 <= i < |names| ==> names[i] != ""
  }

  /** `path` is reached from `root` by going down one entry or more. */
  ghost predicate Under(root: Path, path: Path) {
    exists names :: names != [] && Entries(names) && path == Walked(root, names)
  }

  /** Every known path is the root or under it. */
  ghost predicate Below(root: Path, t: Inodes) {
    forall i :: i in t.pathOf ==> t.pathOf[i] == root || Under(root, t.pathOf[i])
  }

  lemma {:induction false} WalkedExtends(root: Path, names: seq<string>)
    requires Entries(names)
    ensures if names == [] then Walked(root, names) == root else root < Walked(root, names)
  {
    if names != [] {
      WalkedExtends(root, names[..|names| - 1]);
    }
  }

  lemma UnderExtends(root: Path, path: Path)
    requires Under(root, path)
    ensures root < path
  {
    var names :| names != [] && Entries(names) && path == Walked(root, names);
    WalkedExtends(root, names);
  }

  lemma ChildIsUnder(root: Path, parent: Path, name: string)
    requires (parent == root || Under(root, parent)) && name != ""
    ensures Under(root, ChildPath(parent, name))
  {
    hide ChildPath;
    var none: seq<string> := [];
    assert Walked(root, none) == root && Entries(none);
    var names :| Entries(names) && parent == Walked(root, names);
    var more := names + [name];
    assert more[..|names|] == names;
    assert Walked(root, more) == ChildPath(parent, name);
  }

  /** A directory's path: "/" or one that does not end in a slash. */
  predicate IsDirectoryPath(p: Path) {
    p == "/" || (p != "" && p[|p| - 1] != '/')
  }

  lemma ChildSplits(parent: Path, name: string)
    requires IsDirectoryPath(parent)
    ensures var at := if parent == "/" then 0 else |parent|;
            && |ChildPath(parent, name)| == at + 1 + |name| && ChildPath(parent, name)[at] == '/'
            && ChildPath(parent, name)[..at] == parent[..at] && ChildPath(parent, name)[at + 1..] == name
  {
  }

  /** Two entries have the same path only if they are the same name in the same directory. */
  lemma {:induction false} EntriesAreDistinct(p: Path, n: string, q: Path, m: string)
    requires IsDirectoryPath(p) && IsDirectoryPath(q) && '/' !in n && '/' !in m
    requires ChildPath(p, n) == ChildPath(q, m)
    ensures p == q && n == m
  {
    hide ChildPath;
    ChildSplits(p, n);
    ChildSplits(q, m);
    var c := ChildPath(p, n);
    var i, j := if p == "/" then 0 else |p|, if q == "/" then 0 else |q|;
    SlashesMeet(c, i, j);
    assert p == if i == 0 then "/" else c[..i];
    assert q == if j == 0 then "/" else c[..j];
  }

  lemma SlashAfter(c: string, i: nat, j: nat)
    requires i < j < |c| && c[j] == '/'
    ensures '/' in c[i + 1..]
  {
    assert c[i + 1..][j - i - 1] == '/';
  }

  lemma SlashesMeet(c: string, i: nat, j: nat)
    requires i < |c| && j < |c| && c[i] == '/' && c[j] == '/'
    requires '/' !in c[i + 1..] && '/' !in c[j + 1..]
    ensures i == j
  {
    if i < j {
      SlashAfter(c, i, j);
      assert false;
    }
    if j < i {
      SlashAfter(c, j, i);
      assert false;
    }
  }

  /** What a successful call leaves: a looked-up entry has a number and every known path keeps its own,
      an unlinked entry has none, and a renamed one keeps the number it had. */
  lemma {:induction false} CallsDo(t: Inodes, c: Call)
    requires Coherent(t) && OpOf(t, c).Some?
    ensures c.LookupAt? ==>
              && ChildPath(t.pathOf[c.parent], c.name) in Served(t, c).inoOf
              && forall p :: p in t.inoOf ==> p in Served(t, c).inoOf && Served(t, c).inoOf[p] == t.inoOf[p]
    ensures c.GetAttr? ==> t.pathOf[c.ino] in Served(t, c).inoOf
    ensures c.UnlinkAt? ==> ChildPath(t.pathOf[c.parent], c.name) !in Served(t, c).inoOf
    ensures c.RenameAt? && ChildPath(t.pathOf[c.parent], c.name) in t.inoOf ==>
              var src, dst := ChildPath(t.pathOf[c.parent], c.name), ChildPath(t.pathOf[c.newParent], c.newName);
              dst in Served(t, c).inoOf && Served(t, c).inoOf[dst] == t.inoOf[src]
  {
    hide ChildPath;
  }

  /** Everything the operation names is under the root; a lookup may be of the root itself. */
  ghost predicate StaysUnder(root: Path, op: Op) {
    match op
    case Lookup(path) => path == root || Under(root, path)
    case Remove(path) => Under(root, path)
    case Rename(src, dst) => Under(root, src) && Under(root, dst)
  }

  /** A callback names entries through their directory's number, so only paths under the root. */
  lemma {:induction false} CallsStayUnder(root: Path, t: Inodes, c: Call)
    requires Below(root, t) && Named(c)
    ensures OpOf(t, c).Some? ==> StaysUnder(root, OpOf(t, c).value)
    ensures c.LookupAt? && OpOf(t, c).Some? ==> Under(root, OpOf(t, c).value.path)
    ensures Below(root, Served(t, c))
  {
    hide Under, ChildPath;
    match c {
      case LookupAt(parent, name) =>
        if parent in t.pathOf { ChildIsUnder(root, t.pathOf[parent], name); }
      case UnlinkAt(parent, name) =>
        if parent in t.pathOf { ChildIsUnder(root, t.pathOf[parent], name); }
      case RenameAt(parent, name, newParent, newName) =>
        if parent in t.pathOf && newParent in t.pathOf {
          ChildIsUnder(root, t.pathOf[parent], name);
          ChildIsUnder(root, t.pathOf[newParent], newName);
        }
      case GetAttr(_) =>
    }
  }

  predicate SparesRoot(root: Path, op: Op) {
    match op
    case Lookup(_) => true
    case Remove(path) => path != root
    case Rename(src, dst) => src != root && dst != root
  }

  lemma CallsSpareRoot(root: Path, t: Inodes, c: Call)
    requires Below(root, t) && Named(c)
    ensures OpOf(t, c).Some? ==> SparesRoot(root, OpOf(t, c).value)
  {
    hide Under, ChildPath, Below;
    CallsStayUnder(root, t, c);
    if OpOf(t, c).Some? {
      match OpOf(t, c).value {
        case Lookup(_) =>
        case Remove(path) => UnderExtends(root, path);
        case Rename(src, dst) =>
          UnderExtends(root, src);
          UnderExtends(root, dst);
      }
    }
  }

  ghost predicate RootHolds(root: Path, t: Inodes) {
    && root in t.inoOf && t.inoOf[root] == ROOT_INO
    && ROOT_INO in t.pathOf && t.pathOf[ROOT_INO] == root
  }

  lemma RootHoldsAfter(root: Path, t: Inodes, op: Op)
    requires Coherent(t) && RootHolds(root, t) && SparesRoot(root, op)
    ensures RootHolds(root, After(t, op))
  {
  }

  /** In every session of callbacks the root keeps number 1: every path a callback names is a child of
      a known directory, so none removes, renames or overwrites the root. */
  lemma {:induction false} RootKeepsItsNumber(root: Path, ts: seq<Inodes>, cs: seq<Call>, k: nat)
    requires IsSession(root, ts, cs) && k < |ts|
    ensures RootHolds(root, ts[k]) && Coherent(ts[k]) && Below(root, ts[k])
  {
    if k > 0 {
      RootKeepsItsNumber(root, ts, cs, k - 1);
      var t, c := ts[k - 1], cs[k - 1];
      CallsStayUnder(root, t, c);
      CallsSpareRoot(root, t, c);
      if OpOf(t, c).Some? {
        CoherentAfter(t, OpOf(t, c).value);
        RootHoldsAfter(root, t, OpOf(t, c).value);
      }
    }
  }

  /** The overwritten numbers of the first `k` operations. */
  ghost function AllOverwritten(ts: seq<Inodes>, ops: seq<Op>, k: nat): set<nat>
    requires k <= |ops| < |ts|
  {
    if k == 0 then {} else AllOverwritten(ts, ops, k - 1) + Overwritten(ts[k - 1], ops[k - 1])
  }

  /** Exactly what the table gets wrong over every run: the numbers that still name a path that is
      not theirs are those of the rename targets that were overwritten. */
  lemma {:induction false} StaleAreTheOverwritten(root: Path, ts: seq<Inodes>, ops: seq<Op>, k: nat)
    requires IsRun(root, ts, ops) && k < |ts|
    ensures Stale(ts[k]) == AllOverwritten(ts, ops, k)
  {
    if k > 0 {
      StaleAreTheOverwritten(root, ts, ops, k - 1);
      RunIsCoherent(root, ts, ops, k - 1);
      StaleAfter(ts[k - 1], ops[k - 1]);
    }
  }

  ghost predicate Bijective(t: Inodes) {
    && (forall p :: p in t.inoOf ==> t.inoOf[p] in t.pathOf && t.pathOf[t.inoOf[p]] == p)
    && (forall i :: i in t.pathOf ==> t.pathOf[i] in t.inoOf && t.inoOf[t.pathOf[i]] == i)
  }

  lemma {:induction false} NoneOverwritten(ts: seq<Inodes>, ops: seq<Op>, k: nat)
    requires k <= |ops| < |ts|
    ensures AllOverwritten(ts, ops, k) == {} <==> forall i :: 0 <= i < k ==> Overwritten(ts[i], ops[i]) == {}
  {
    if k > 0 {
      NoneOverwritten(ts, ops, k - 1);
    }
  }

  lemma BijectiveIffNoneStale(t: Inodes)
    requires Coherent(t)
    ensures Bijective(t) <==> Stale(t) == {}
  {
    if Stale(t) == {} {
      forall i | i in t.pathOf
        ensures t.pathOf[i] in t.inoOf && t.inoOf[t.pathOf[i]] == i
      {
        assert i !in Stale(t);
      }
    }
  }

  /** The two maps are inverse to each other if and only if no rename so far went over another
      known path. */
  lemma {:induction false} BijectiveIffNothingOverwritten(root: Path, ts: seq<Inodes>, ops: seq<Op>, k: nat)
    requires IsRun(root, ts, ops) && k < |ts|
    ensures Bijective(ts[k]) <==> forall i :: 0 <= i < k ==> Overwritten(ts[i], ops[i]) == {}
  {
    RunIsCoherent(root, ts, ops, k);
    StaleAreTheOverwritten(root, ts, ops, k);
    NoneOverwritten(ts, ops, k);
    BijectiveIffNoneStale(ts[k]);
  }

  lemma OverwrittenTable(root: Path, b: Path, t: Inodes)
    requires root != b && t.pathOf == map[1 := root, 2 := b, 3 := b] && t.inoOf == map[root := 1, b := 2]
    ensures !Bijective(t) && Stale(t) == {3}
  {
    assert t.inoOf[t.pathOf[3]] != 3;
  }

  lemma TwoLookups(root: Path, a: Path, b: Path)
    requires root != a && root != b && a != b
    ensures var t := After(After(Rooted(root), Lookup(a)), Lookup(b));
            t.inoOf == map[root := 1, a := 2, b := 3] && t.pathOf == map[1 := root, 2 := a, 3 := b]
  {
  }

  lemma RenameOver(root: Path, a: Path, b: Path, t: Inodes)
    requires root != a && root != b && a != b
    requires t.inoOf == map[root := 1, a := 2, b := 3] && t.pathOf == map[1 := root, 2 := a, 3 := b]
    ensures var t' := After(t, Rename(a, b));
            t'.pathOf == map[1 := root, 2 := b, 3 := b] && t'.inoOf == map[root := 1, b := 2]
  {
  }

  /** Look up a and b, rename a over b: number 3 still names b, whose number is now 2. */
  lemma {:induction false} RenameOverWitness(root: Path, a: Path, b: Path) returns (ts: seq<Inodes>, ops: seq<Op>)
    requires root != a && root != b && a != b
    ensures ops == [Lookup(a), Lookup(b), Rename(a, b)] && IsRun(root, ts, ops)
    ensures !Bijective(ts[3]) && Stale(ts[3]) == {3}
    ensures b in ts[3].inoOf && ts[3].inoOf[b] == 2 && 3 in ts[3].pathOf && ts[3].pathOf[3] == b
  {
    hide Bijective, Stale, After;
    ops := [Lookup(a), Lookup(b), Rename(a, b)];
    var t1 := After(Rooted(root), ops[0]);
    var t2 := After(t1, ops[1]);
    ts := [Rooted(root), t1, t2, After(t2, ops[2])];
    TwoLookups(root, a, b);
    RenameOver(root, a, b, t2);
    OverwrittenTable(root, b, ts[3]);
  }
}
