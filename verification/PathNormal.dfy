/** How the server turns a client's path into components below the export root. Paths are byte
    strings; what the file system says about links is a pair of given answers. */
module PathNormal {
  import opened FileModel

  type Text = seq<Byte>

  const NUL: Byte := 0
  const DOT: Byte := 46
  const SLASH: Byte := 47

  const MAX_PATH_LEN: nat := 4096
  const MAX_COMPONENT: nat := 255
  const MAX_PATH_DEPTH: nat := 128

  datatype Refusal = TooLong | NullByte | Traversal | ComponentTooLong | TooDeep | Escapes

  datatype Resolved = Ok(components: seq<Text>) | Refused(why: Refusal)

  /** `isLink`: the path below the root is a symbolic link. `escapes`: it exists and its canonical
      form is not below the root. */
  datatype FileSystem = FileSystem(isLink: seq<Text> -> bool, escapes: seq<Text> -> bool)

  // ----- splitting and joining -----

  function Split(s: Text): (r: seq<Text>)
    ensures r != []
  {
    if s == [] then [[]]
    else if s[0] == SLASH then [[]] + Split(s[1..])
    else
      var r := Split(s[1..]);
      [[s[0]] + r[0]] + r[1..]
  }

  function Join(parts: seq<Text>): Text {
    if parts == [] then []
    else if |parts| == 1 then parts[0]
    else parts[0] + [SLASH] + Join(parts[1..])
  }

  lemma SplitCons(c: Byte, s: Text)
    ensures Split([c] + s)
         == if c == SLASH then [[]] + Split(s) else [[c] + Split(s)[0]] + Split(s)[1..]
  {
    assert ([c] + s)[1..] == s;
  }

  lemma JoinCons(p: Text, rest: seq<Text>)
    ensures Join([p] + rest) == if rest == [] then p else p + [SLASH] + Join(rest)
  {
    assert ([p] + rest)[1..] == rest;
  }

  lemma {:induction false} JoinSplit(s: Text)
    ensures Join(Split(s)) == s
  {
    if s == [] {
      assert Split(s) == [[]];
    } else {
      var c, rest := s[0], s[1..];
      var r := Split(rest);
      JoinSplit(rest);
      SplitCons(c, rest);
      assert s == [c] + rest && r == [r[0]] + r[1..];
      hide Split, Join;
      if c == SLASH {
        JoinCons([], r);
      } else {
        JoinCons([c] + r[0], r[1..]);
        JoinCons(r[0], r[1..]);
      }
    }
  }

  lemma {:induction false} NoSlashInside(s: Text)
    ensures forall i :: 0 <= i < |Split(s)| ==> SLASH !in Split(s)[i]
  {
    if s != [] {
      NoSlashInside(s[1..]);
      SplitCons(s[0], s[1..]);
      assert s == [s[0]] + s[1..];
      hide Split;
    }
  }

  lemma {:induction false} SplitConcat(a: Text, b: Text)
    ensures Split(a + [SLASH] + b) == Split(a) + Split(b)
  {
    if a == [] {
      assert a + [SLASH] + b == [SLASH] + b;
      SplitCons(SLASH, b);
      assert Split(a) == [[]];
    } else {
      var c, rest := a[0], a[1..];
      SplitConcat(rest, b);
      SplitCons(c, rest + [SLASH] + b);
      SplitCons(c, rest);
      assert a + [SLASH] + b == [c] + (rest + [SLASH] + b) && a == [c] + rest;
      hide Split;
      SplitHead(c, Split(rest), Split(b));
    }
  }

  lemma SplitHead(c: Byte, x: seq<Text>, y: seq<Text>)
    requires x != []
    ensures [[]] + (x + y) == [[]] + x + y
    ensures [[c] + (x + y)[0]] + (x + y)[1..] == [[c] + x[0]] + x[1..] + y
  {
    assert (x + y)[1..] == x[1..] + y;
  }

  lemma {:induction false} SplitPlain(s: Text)
    requires SLASH !in s
    ensures Split(s) == [s]
  {
    if s != [] {
      SplitPlain(s[1..]);
      assert s == [s[0]] + s[1..];
    }
  }

  lemma {:induction false} SplitJoin(parts: seq<Text>)
    requires parts != [] && forall i :: 0 <= i < |parts| ==> SLASH !in parts[i]
    ensures Split(Join(parts)) == parts
  {
    SplitPlain(parts[0]);
    if |parts| > 1 {
      SplitJoin(parts[1..]);
      SplitConcat(parts[0], Join(parts[1..]));
    }
  }

  // ----- the components that count -----

  predicate Skipped(p: Text) {
    p == [] || p == [DOT]
  }

  function Kept(parts: seq<Text>): seq<Text> {
    if parts == [] then []
    else (if Skipped(parts[0]) then [] else [parts[0]]) + Kept(parts[1..])
  }

  /** What a spelling says, apart from extra slashes and ".". */
  function Significant(path: Text): seq<Text> {
    Kept(Split(path))
  }

  lemma {:induction false} KeptConcat(a: seq<Text>, b: seq<Text>)
    ensures Kept(a + b) == Kept(a) + Kept(b)
  {
    if a == [] {
      assert a + b == b;
    } else {
      KeptConcat(a[1..], b);
      assert (a + b)[1..] == a[1..] + b;
      Associative(if Skipped(a[0]) then [] else [a[0]], Kept(a[1..]), Kept(b));
    }
  }

  lemma Associative(x: seq<Text>, y: seq<Text>, z: seq<Text>)
    ensures x + (y + z) == x + y + z
  {
  }

  lemma SignificantConcat(a: Text, b: Text)
    ensures Significant(a + [SLASH] + b) == Significant(a) + Significant(b)
  {
    SplitConcat(a, b);
    KeptConcat(Split(a), Split(b));
  }

  lemma NothingSignificant()
    ensures Significant([]) == [] && Significant([DOT]) == []
  {
    SplitPlain([DOT]);
    assert Kept([[DOT]]) == [];
    assert Split([]) == [[]];
  }

  /** Extra slashes and "." anywhere leave what a path says alone: between components, in front
      and at the end. */
  lemma {:induction false} RespellingKeeps(a: Text, b: Text)
    ensures Significant(a + [SLASH] + ([SLASH] + b)) == Significant(a + [SLASH] + b)
    ensures Significant(a + [SLASH] + ([DOT, SLASH] + b)) == Significant(a + [SLASH] + b)
    ensures Significant([SLASH] + b) == Significant(b) == Significant([DOT, SLASH] + b)
    ensures Significant(a + [SLASH]) == Significant(a) == Significant(a + [SLASH, DOT])
  {
    NothingSignificant();
    assert [SLASH] + b == [] + [SLASH] + b && [DOT, SLASH] + b == [DOT] + [SLASH] + b;
    SignificantConcat([], b);
    SignificantConcat([DOT], b);
    assert a + [SLASH] == a + [SLASH] + [] && a + [SLASH, DOT] == a + [SLASH] + [DOT];
    SignificantConcat(a, []);
    SignificantConcat(a, [DOT]);
    SignificantConcat(a, b);
    SignificantConcat(a, [SLASH] + b);
    SignificantConcat(a, [DOT, SLASH] + b);
  }

  // ----- acceptance -----

  predicate Plain(p: Text) {
    p != [] && p != [DOT] && p != [DOT, DOT] && |p| <= MAX_COMPONENT && SLASH !in p && NUL !in p
  }

  predicate InNormalForm(cs: seq<Text>) {
    |cs| <= MAX_PATH_DEPTH && forall i :: 0 <= i < |cs| ==> Plain(cs[i])
  }

  /** No proper prefix is a link and the whole does not lead outside. */
  predicate Confined(fs: FileSystem, cs: seq<Text>) {
    (forall i :: 0 < i < |cs| ==> !fs.isLink(cs[..i])) && !fs.escapes(cs)
  }

  /** Exactly the accepted paths. */
  predicate Acceptable(fs: FileSystem, path: Text) {
    |path| <= MAX_PATH_LEN && InNormalForm(Significant(path)) && Confined(fs, Significant(path))
  }

  /** The first component that is refused for itself. */
  function FirstBad(cs: seq<Text>): Option<Refusal> {
    if cs == [] then None
    else if cs[0] == [DOT, DOT] then Some(Traversal)
    else if |cs[0]| > MAX_COMPONENT then Some(ComponentTooLong)
    else FirstBad(cs[1..])
  }

  /** What `resolve` answers, read off the significant components. */
  ghost function Verdict(fs: FileSystem, path: Text): Resolved {
    var cs := Significant(path);
    if |path| > MAX_PATH_LEN then Refused(TooLong)
    else if NUL in path then Refused(NullByte)
    else if FirstBad(cs).Some? then Refused(FirstBad(cs).value)
    else if |cs| > MAX_PATH_DEPTH then Refused(TooDeep)
    else if !Confined(fs, cs) then Refused(Escapes)
    else Ok(cs)
  }

  lemma {:induction false} FirstBadAfter(good: seq<Text>, rest: seq<Text>)
    requires FirstBad(good).None?
    ensures FirstBad(good + rest) == FirstBad(rest)
  {
    if good == [] {
      assert good + rest == rest;
    } else {
      FirstBadAfter(good[1..], rest);
      assert (good + rest)[1..] == good[1..] + rest;
    }
  }

  lemma KeptNext(parts: seq<Text>, i: nat)
    requires i < |parts|
    ensures Kept(parts[..i + 1]) == Kept(parts[..i]) + if Skipped(parts[i]) then [] else [parts[i]]
  {
    assert parts[..i + 1] == parts[..i] + [parts[i]];
    KeptConcat(parts[..i], [parts[i]]);
    assert Kept([parts[i]]) == if Skipped(parts[i]) then [] else [parts[i]];
  }

  lemma FirstBadHead(p: Text, rest: seq<Text>)
    requires FirstBad([p]).Some?
    ensures FirstBad([p] + rest) == FirstBad([p])
  {
    assert [p][1..] == [];
  }

  lemma KeptAround(parts: seq<Text>, i: nat)
    requires i < |parts| && !Skipped(parts[i])
    ensures Kept(parts) == Kept(parts[..i]) + ([parts[i]] + Kept(parts[i + 1..]))
  {
    KeptNext(parts, i);
    KeptConcat(parts[..i + 1], parts[i + 1..]);
    assert parts == parts[..i + 1] + parts[i + 1..];
    hide Kept;
    Associative(Kept(parts[..i]), [parts[i]], Kept(parts[i + 1..]));
  }

  /** Meeting a component after good ones. */
  lemma BadFound(parts: seq<Text>, i: nat)
    requires i < |parts| && FirstBad(Kept(parts[..i])).None? && !Skipped(parts[i])
    ensures FirstBad(Kept(parts[..i + 1])) == FirstBad([parts[i]])
    ensures FirstBad([parts[i]]).Some? ==> FirstBad(Kept(parts)) == FirstBad([parts[i]])
  {
    KeptNext(parts, i);
    KeptAround(parts, i);
    hide Kept, FirstBad;
    FirstBadAfter(Kept(parts[..i]), [parts[i]]);
    var rest := Kept(parts[i + 1..]);
    FirstBadAfter(Kept(parts[..i]), [parts[i]] + rest);
    if FirstBad([parts[i]]).Some? {
      FirstBadHead(parts[i], rest);
    }
  }

  lemma FirstBadOne(p: Text)
    ensures FirstBad([p]) ==
            if p == [DOT, DOT] then Some(Traversal) else if |p| > MAX_COMPONENT then Some(ComponentTooLong) else None
  {
    assert [p][1..] == [];
  }

  lemma LeadingSlash(s: Text)
    requires s != [] && s[0] == SLASH
    ensures Significant(s[1..]) == Significant(s)
  {
    assert s == [] + [SLASH] + s[1..];
    NothingSignificant();
    SignificantConcat([], s[1..]);
  }

  /** `trim_start_matches('/')`. */
  method TrimSlashes(path: Text) returns (rel: Text)
    ensures Significant(rel) == Significant(path)
  {
    hide Significant;
    rel := path;
    while rel != [] && rel[0] == SLASH
      invariant Significant(rel) == Significant(path)
      decreases |rel|
    {
      LeadingSlash(rel);
      rel := rel[1..];
    }
  }

  /** The normalisation loop of `resolve`: the components kept, or why not. */
  method Components(parts: seq<Text>) returns (r: Resolved)
    ensures r == if FirstBad(Kept(parts)).Some? then Refused(FirstBad(Kept(parts)).value) else Ok(Kept(parts))
  {
    var components: seq<Text> := [];
    assert parts[..0] == [];
    hide Kept, FirstBad;
    assert Kept([]) == [] && FirstBad([]).None? by {
      KeptOfNothing();
    }
    for i := 0 to |parts|
      invariant components == Kept(parts[..i]) && FirstBad(components).None?
    {
      var p := parts[i];
      KeptNext(parts, i);
      if Skipped(p) {
        assert components + [] == components;
      } else {
        BadFound(parts, i);
        FirstBadOne(p);
        if p == [DOT, DOT] {
          return Refused(Traversal);
        }
        if |p| > MAX_COMPONENT {
          return Refused(ComponentTooLong);
        }
        components := components + [p];
      }
    }
    assert parts[..|parts|] == parts;
    return Ok(components);
  }

  lemma KeptOfNothing()
    ensures Kept([]) == [] && FirstBad([]).None?
  {
  }

  /** The walk of `resolve` over the components, then the check of the whole path. */
  method Walk(fs: FileSystem, components: seq<Text>) returns (ok: bool)
    ensures ok <==> !fs.escapes(components) && forall k :: 0 < k < |components| ==> !fs.isLink(components[..k])
  {
    var walking: seq<Text> := [];
    for i := 0 to |components|
      invariant walking == components[..i]
      invariant forall k :: 0 < k <= i && k < |components| ==> !fs.isLink(components[..k])
    {
      walking := walking + [components[i]];
      assert walking == components[..i + 1];
      if i + 1 < |components| && fs.isLink(walking) {
        return false;
      }
    }
    assert walking == components;
    return !fs.escapes(walking);
  }

  /** The components one may have below the root: at most 128, each 1 to 255 bytes, none "." or "..",
      none with a '/' or a zero byte. */
  ghost predicate Normal(cs: seq<Text>) {
    && |cs| <= 128
    && forall i :: 0 <= i < |cs| ==>
                     && 1 <= |cs[i]| <= 255 && cs[i] != [46] && cs[i] != [46, 46]
                     && (forall j :: 0 <= j < |cs[i]| ==> cs[i][j] != 47 && cs[i][j] != 0)
  }

  /** No link on the way, and not outside at the end. */
  ghost predicate StaysInside(fs: FileSystem, cs: seq<Text>) {
    !fs.escapes(cs) && forall i :: 0 < i < |cs| ==> !fs.isLink(cs[..i])
  }

  /** `p` is a component, and none before it is ".." or longer than 255 bytes. */
  ghost predicate FirstRefused(cs: seq<Text>, p: Text) {
    exists i :: 0 <= i < |cs| && cs[i] == p && forall j :: 0 <= j < i ==> cs[j] != [46, 46] && |cs[j]| <= 255
  }

  ghost predicate FirstTooLong(cs: seq<Text>) {
    exists p: Text :: |p| > 255 && FirstRefused(cs, p)
  }

  lemma {:induction false} WhatIsRefused(cs: seq<Text>)
    ensures FirstBad(cs) == Some(Traversal) <==> FirstRefused(cs, [46, 46])
    ensures FirstBad(cs) == Some(ComponentTooLong) <==> FirstTooLong(cs)
    ensures FirstBad(cs).Some? ==> FirstBad(cs).value.Traversal? || FirstBad(cs).value.ComponentTooLong?
  {
    if cs != [] {
      WhatIsRefused(cs[1..]);
      RefusedNext(cs);
    }
  }

  lemma RefusedNext(cs: seq<Text>)
    requires cs != []
    ensures forall p: Text :: FirstRefused(cs, p) <==>
              cs[0] == p || (cs[0] != [46, 46] && |cs[0]| <= 255 && FirstRefused(cs[1..], p))
  {
    forall p: Text
      ensures FirstRefused(cs, p) <==>
              cs[0] == p || (cs[0] != [46, 46] && |cs[0]| <= 255 && FirstRefused(cs[1..], p))
    {
      var rest := cs[1..];
      if i :| 0 <= i < |cs| && cs[i] == p && forall j :: 0 <= j < i ==> cs[j] != [46, 46] && |cs[j]| <= 255 {
        if i > 0 {
          assert rest[i - 1] == p && forall j :: 0 <= j < i - 1 ==> rest[j] == cs[j + 1];
        }
      }
      if i :| 0 <= i < |rest| && rest[i] == p && forall j :: 0 <= j < i ==> rest[j] != [46, 46] && |rest[j]| <= 255 {
        if cs[0] != [46, 46] && |cs[0]| <= 255 {
          assert cs[i + 1] == p && forall j :: 0 < j < i + 1 ==> cs[j] == rest[j - 1];
        }
      }
    }
  }

  lemma NormalIs(fs: FileSystem, cs: seq<Text>)
    ensures InNormalForm(cs) <==> Normal(cs)
    ensures Confined(fs, cs) <==> StaysInside(fs, cs)
  {
  }

  /** What is accepted, in numbers and bytes. */
  lemma {:induction false} AcceptsExactly(fs: FileSystem, path: Text)
    ensures var r, cs := Verdict(fs, path), Significant(path);
            && (r.Ok? ==> Normal(r.components) && StaysInside(fs, r.components))
            && (|path| <= 4096 && Normal(cs) && StaysInside(fs, cs) ==> r == Ok(cs))
            && (r == Refused(Escapes) ==> !StaysInside(fs, cs))
  {
    hide Significant, FirstBad, FirstRefused, FirstTooLong, Normal, StaysInside, InNormalForm, Confined;
    AcceptedIffAcceptable(fs, path);
    NormalIs(fs, Significant(path));
    WhatIsRefused(Significant(path));
  }

  /** Which refusal wins. */
  lemma {:induction false} RefusesInOrder(fs: FileSystem, path: Text)
    ensures var r, cs := Verdict(fs, path), Significant(path);
            && (r == Refused(TooLong) <==> |path| > 4096)
            && (|path| <= 4096 ==> (r == Refused(NullByte) <==> 0 in path))
            && (|path| <= 4096 && 0 !in path ==>
                  && (r == Refused(Traversal) <==> FirstRefused(cs, [46, 46]))
                  && (r == Refused(ComponentTooLong) <==> FirstTooLong(cs)))
            && (r == Refused(TooDeep) ==> |cs| > 128)
  {
    hide Significant, FirstBad, FirstRefused, FirstTooLong, Confined;
    WhatIsRefused(Significant(path));
  }

  /** `resolve`. Whatever is accepted is normal and stays inside; a path of at most 4096 bytes whose
      significant components are normal and stay inside is accepted. Of the refusals the length comes
      first, then a zero byte, then the first bad component, then the depth, then leading outside. */
  method Resolve(fs: FileSystem, path: Text) returns (r: Resolved)
    ensures r == Verdict(fs, path)
    ensures r.Ok? ==>
              && Normal(r.components) && !fs.escapes(r.components)
              && forall i :: 0 < i < |r.components| ==> !fs.isLink(r.components[..i])
    ensures |path| <= 4096 && Normal(Significant(path)) && StaysInside(fs, Significant(path)) ==>
              r == Ok(Significant(path))
    ensures r == Refused(TooLong) <==> |path| > 4096
    ensures |path| <= 4096 ==> (r == Refused(NullByte) <==> 0 in path)
    ensures |path| <= 4096 && 0 !in path ==>
              && (r == Refused(Traversal) <==> FirstRefused(Significant(path), [46, 46]))
              && (r == Refused(ComponentTooLong) <==> FirstTooLong(Significant(path)))
    ensures r == Refused(TooDeep) ==> |Significant(path)| > 128
    ensures r == Refused(Escapes) ==> !StaysInside(fs, Significant(path))
  {
    hide FirstBad, Normal, StaysInside, FirstRefused, FirstTooLong, Kept, Split;
    AcceptsExactly(fs, path);
    AcceptedIffAcceptable(fs, path);
    RefusesInOrder(fs, path);
    if |path| > MAX_PATH_LEN {
      return Refused(TooLong);
    }
    if NUL in path {
      return Refused(NullByte);
    }
    var rel := TrimSlashes(path);
    r := Components(Split(rel));
    if r.Ok? {
      if |r.components| > MAX_PATH_DEPTH {
        return Refused(TooDeep);
      }
      var ok := Walk(fs, r.components);
      if !ok {
        return Refused(Escapes);
      }
    }
  }

  // ----- what it promises -----

  lemma {:induction false} GoodComponents(cs: seq<Text>)
    ensures FirstBad(cs).None? <==>
            forall i :: 0 <= i < |cs| ==> cs[i] != [DOT, DOT] && |cs[i]| <= MAX_COMPONENT
  {
    if cs != [] {
      GoodComponents(cs[1..]);
      assert forall i :: 0 < i < |cs| ==> cs[i] == cs[1..][i - 1];
    }
  }

  lemma {:induction false} KeptMembers(parts: seq<Text>)
    ensures forall c :: c in Kept(parts) <==> c in parts && !Skipped(c)
  {
    if parts != [] {
      KeptMembers(parts[1..]);
      assert parts == [parts[0]] + parts[1..];
    }
  }

  lemma {:induction false} KeptIsShorter(parts: seq<Text>)
    ensures |Join(Kept(parts))| <= |Join(parts)|
  {
    if parts != [] {
      var p, rest := parts[0], parts[1..];
      KeptIsShorter(rest);
      assert parts == [p] + rest;
      assert rest == [] ==> Kept(rest) == [];
      JoinCons(p, rest);
      JoinCons(p, Kept(rest));
      assert Kept(parts) == if Skipped(p) then Kept(rest) else [p] + Kept(rest);
    }
  }

  lemma {:induction false} JoinedByte(parts: seq<Text>, b: Byte)
    requires b != SLASH
    ensures b in Join(parts) <==> exists i :: 0 <= i < |parts| && b in parts[i]
  {
    if |parts| > 1 {
      JoinedByte(parts[1..], b);
      assert forall i :: 0 < i < |parts| ==> parts[i] == parts[1..][i - 1];
    }
  }

  lemma NulInside(path: Text)
    ensures NUL in path <==> exists c :: c in Significant(path) && NUL in c
  {
    hide Split, Join, Kept;
    var parts := Split(path);
    JoinSplit(path);
    JoinedByte(parts, NUL);
    KeptMembers(parts);
    if NUL in path {
      var i :| 0 <= i < |parts| && NUL in parts[i];
      assert parts[i] in Kept(parts);
    }
    if c :| c in Significant(path) && NUL in c {
      var i :| 0 <= i < |parts| && parts[i] == c;
    }
  }

  lemma SignificantFacts(path: Text)
    ensures |Join(Significant(path))| <= |path|
    ensures forall c :: c in Significant(path) ==> SLASH !in c && !Skipped(c)
    ensures NUL in path <==> exists c :: c in Significant(path) && NUL in c
  {
    hide Split, Join, Kept;
    JoinSplit(path);
    NoSlashInside(path);
    KeptMembers(Split(path));
    KeptIsShorter(Split(path));
    NulInside(path);
  }

  lemma NormalIff(path: Text)
    ensures var cs := Significant(path);
            InNormalForm(cs) <==> NUL !in path && FirstBad(cs).None? && |cs| <= MAX_PATH_DEPTH
  {
    var cs := Significant(path);
    SignificantFacts(path);
    GoodComponents(cs);
    hide Significant, FirstBad;
    if NUL in path {
      var c :| c in cs && NUL in c;
      var i :| 0 <= i < |cs| && cs[i] == c;
      assert !Plain(cs[i]);
    } else {
      forall i | 0 <= i < |cs|
        ensures Plain(cs[i]) <==> cs[i] != [DOT, DOT] && |cs[i]| <= MAX_COMPONENT
      {
        assert cs[i] in cs;
      }
    }
  }

  /** Exactly the acceptable paths are accepted, and the answer is the root followed by at most
      128 plain components, none reached through a link. */
  lemma {:induction false} AcceptedIffAcceptable(fs: FileSystem, path: Text)
    ensures Verdict(fs, path).Ok? <==> Acceptable(fs, path)
    ensures Verdict(fs, path).Ok? ==>
              && Verdict(fs, path).components == Significant(path)
              && InNormalForm(Verdict(fs, path).components) && !fs.escapes(Verdict(fs, path).components)
              && forall i :: 0 < i < |Verdict(fs, path).components| ==> !fs.isLink(Verdict(fs, path).components[..i])
  {
    hide Significant, FirstBad, InNormalForm;
    NormalIff(path);
  }

  /** Spellings that differ only in extra slashes and "." get the same answer. */
  lemma {:induction false} RespellingsAgree(fs: FileSystem, p: Text, q: Text)
    requires Significant(p) == Significant(q) && |p| <= MAX_PATH_LEN && |q| <= MAX_PATH_LEN
    ensures Verdict(fs, p) == Verdict(fs, q)
  {
    SignificantFacts(p);
    SignificantFacts(q);
  }

  lemma {:induction false} NothingToSkip(cs: seq<Text>)
    requires forall i :: 0 <= i < |cs| ==> !Skipped(cs[i])
    ensures Kept(cs) == cs
  {
    if cs != [] {
      NothingToSkip(cs[1..]);
    }
  }

  /** Resolving the accepted components joined by '/' gives them back. */
  lemma {:induction false} ResolvingAgain(fs: FileSystem, path: Text)
    requires Verdict(fs, path).Ok?
    ensures Verdict(fs, Join(Verdict(fs, path).components)) == Verdict(fs, path)
  {
    var cs := Verdict(fs, path).components;
    SignificantFacts(path);
    if cs == [] {
      NothingSignificant();
    } else {
      SplitJoin(cs);
      NothingToSkip(cs);
    }
    RespellingsAgree(fs, Join(cs), path);
  }
}
