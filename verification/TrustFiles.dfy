/** The text forms of `known_hosts` and `authorized_keys`: what loading a saved file gives back. */
module TrustFiles {
  import opened FileModel

  // ----- characters, lines and words -----

  /** The Unicode White_Space property. */
  predicate IsSpace(c: char) {
    || '\U{9}' <= c <= '\U{D}' || c == ' ' || c == '\U{85}' || c == '\U{A0}' || c == '\U{1680}'
    || '\U{2000}' <= c <= '\U{200A}' || c == '\U{2028}' || c == '\U{2029}' || c == '\U{202F}'
    || c == '\U{205F}' || c == '\U{3000}'
  }

  predicate NoSpace(s: string) {
    forall i :: 0 <= i < |s| ==> !IsSpace(s[i])
  }

  function TrimStart(s: string): string {
    if s == "" || !IsSpace(s[0]) then s else TrimStart(s[1..])
  }

  function TrimEnd(s: string): string {
    if s == "" || !IsSpace(s[|s| - 1]) then s else TrimEnd(s[..|s| - 1])
  }

  /** `str::trim`. */
  function Trim(s: string): string {
    TrimEnd(TrimStart(s))
  }

  /** Length of the word `s` starts with. */
  function WordLength(s: string): (n: nat)
    ensures n <= |s| && NoSpace(s[..n]) && (n < |s| ==> IsSpace(s[n]))
  {
    if s == "" || IsSpace(s[0]) then 0
    else
      var n := 1 + WordLength(s[1..]);
      assert s[..n] == [s[0]] + s[1..][..n - 1];
      n
  }

  /** Index of the first line break, or the length. */
  function LineLength(s: string): (n: nat)
    ensures n <= |s| && '\n' !in s[..n] && (n < |s| ==> s[n] == '\n')
  {
    if s == "" || s[0] == '\n' then 0
    else
      var n := 1 + LineLength(s[1..]);
      assert s[..n] == [s[0]] + s[1..][..n - 1];
      n
  }

  function StripCR(line: string): string {
    if line != "" && line[|line| - 1] == '\r' then line[..|line| - 1] else line
  }

  /** `str::lines`: a final line break starts no further line. */
  function Lines(s: string): seq<string> {
    var n := LineLength(s);
    if s == "" then []
    else if n == |s| then [s]
    else [StripCR(s[..n])] + Lines(s[n + 1..])
  }

  lemma {:induction false} LineLengthIs(a: string, rest: string)
    requires '\n' !in a
    ensures LineLength(a + "\n" + rest) == |a|
  {
    var s := a + "\n" + rest;
    if a == "" {
      assert s[0] == '\n';
    } else {
      LineLengthIs(a[1..], rest);
      assert s[1..] == a[1..] + "\n" + rest;
    }
  }

  lemma LinesPush(a: string, rest: string)
    requires '\n' !in a
    ensures Lines(a + "\n" + rest) == [StripCR(a)] + Lines(rest)
  {
    var s := a + "\n" + rest;
    LineLengthIs(a, rest);
    assert s[..|a|] == a && s[|a| + 1..] == rest;
  }

  // ----- tables as text -----

  type Table = map<string, string>

  type Parser = string -> Option<(string, string)>

  type Printer = (string, string) -> string

  function Insert(m: Table, e: Option<(string, string)>): Table {
    match e
    case None => m
    case Some((k, v)) => m[k := v]
  }

  /** Line after line, a later entry replacing an earlier one. */
  function Loaded(parse: Parser, lines: seq<string>): Table {
    if lines == [] then map[]
    else Insert(Loaded(parse, lines[..|lines| - 1]), parse(lines[|lines| - 1]))
  }

  /** One line for each key of `keys`. */
  function Printed(show: Printer, m: Table, keys: seq<string>): string
    requires forall i :: 0 <= i < |keys| ==> keys[i] in m
  {
    if keys == [] then "" else show(keys[0], m[keys[0]]) + "\n" + Printed(show, m, keys[1..])
  }

  /** The keys of the map in some iteration order. */
  ghost predicate Enumerates(keys: seq<string>, m: Table) {
    && (forall i :: 0 <= i < |keys| ==> keys[i] in m)
    && (forall k :: k in m ==> k in keys)
  }

  /** The line printed for an entry reads back as that entry. */
  ghost predicate ReadsBack(parse: Parser, show: Printer, k: string, v: string) {
    '\n' !in show(k, v) && parse(StripCR(show(k, v))) == Some((k, v))
  }

  lemma {:induction false} LoadedCons(parse: Parser, l: string, lines: seq<string>)
    ensures Loaded(parse, [l] + lines) == Insert(map[], parse(l)) + Loaded(parse, lines)
  {
    if lines == [] {
      assert ([l] + lines)[..0] == [];
    } else {
      var init := lines[..|lines| - 1];
      LoadedCons(parse, l, init);
      assert ([l] + lines)[..|lines|] == [l] + init;
    }
  }

  /** Line `i` is the last that names `k`. */
  ghost predicate LastNaming(parse: Parser, lines: seq<string>, i: nat, k: string) {
    && i < |lines| && parse(lines[i]).Some? && parse(lines[i]).value.0 == k
    && forall j :: i < j < |lines| && parse(lines[j]).Some? ==> parse(lines[j]).value.0 != k
  }

  /** A loaded table holds exactly the entries of the lines that are the last to name their key. */
  lemma {:induction false} LastLineWins(parse: Parser, lines: seq<string>, k: string, v: string)
    ensures k in Loaded(parse, lines) && Loaded(parse, lines)[k] == v <==>
            exists i: nat :: LastNaming(parse, lines, i, k) && parse(lines[i]).value.1 == v
  {
    if lines != [] {
      var init, n := lines[..|lines| - 1], |lines| - 1;
      LastLineWins(parse, init, k, v);
      assert forall i :: 0 <= i < n ==> init[i] == lines[i];
      var e := parse(lines[n]);
      if e.Some? && e.value.0 == k {
        assert LastNaming(parse, lines, n, k);
      } else {
        if i: nat :| LastNaming(parse, init, i, k) && parse(init[i]).value.1 == v {
          assert LastNaming(parse, lines, i, k);
        }
        if i: nat :| LastNaming(parse, lines, i, k) && parse(lines[i]).value.1 == v {
          assert i < n && LastNaming(parse, init, i, k);
        }
      }
    }
  }

  function Restricted(m: Table, keys: seq<string>): Table
    requires forall i :: 0 <= i < |keys| ==> keys[i] in m
  {
    map k | k in keys :: m[k]
  }

  lemma RestrictedCons(m: Table, keys: seq<string>)
    requires keys != [] && forall i :: 0 <= i < |keys| ==> keys[i] in m
    ensures Restricted(m, keys) == map[keys[0] := m[keys[0]]] + Restricted(m, keys[1..])
  {
    assert keys == [keys[0]] + keys[1..];
  }

  lemma {:induction false} PrintedReadsBack(parse: Parser, show: Printer, m: Table, keys: seq<string>)
    requires forall i :: 0 <= i < |keys| ==> keys[i] in m && ReadsBack(parse, show, keys[i], m[keys[i]])
    ensures Loaded(parse, Lines(Printed(show, m, keys))) == Restricted(m, keys)
  {
    if keys != [] {
      var k, rest := keys[0], keys[1..];
      assert ReadsBack(parse, show, k, m[k]);
      PrintedReadsBack(parse, show, m, rest);
      LinesPush(show(k, m[k]), Printed(show, m, rest));
      LoadedCons(parse, StripCR(show(k, m[k])), Lines(Printed(show, m, rest)));
      assert Printed(show, m, keys) == show(k, m[k]) + "\n" + Printed(show, m, rest);
      RestrictedCons(m, keys);
      hide Lines, Loaded, Printed, StripCR, Restricted;
    }
  }

  /** A file with a header that is no entry. */
  lemma {:induction false} FileReadsBack(parse: Parser, show: Printer, header: string, m: Table, keys: seq<string>)
    requires Enumerates(keys, m) && '\n' !in header && parse(StripCR(header)).None?
    requires forall k :: k in m ==> ReadsBack(parse, show, k, m[k])
    ensures Loaded(parse, Lines(header + "\n" + Printed(show, m, keys))) == m
  {
    hide Lines, Loaded, Printed, StripCR;
    PrintedReadsBack(parse, show, m, keys);
    LinesPush(header, Printed(show, m, keys));
    LoadedCons(parse, StripCR(header), Lines(Printed(show, m, keys)));
    assert Restricted(m, keys) == m;
  }

  // ----- trimming -----

  /** Starts and ends, if at all, with something other than white space. */
  predicate Trimmed(s: string) {
    s != "" ==> !IsSpace(s[0]) && !IsSpace(s[|s| - 1])
  }

  lemma {:induction false} TrimStartFacts(s: string)
    ensures var t := TrimStart(s); |t| <= |s| && t == s[|s| - |t|..] && (t != "" ==> !IsSpace(t[0]))
    ensures Trimmed(s) ==> TrimStart(s) == s
  {
    if s != "" && IsSpace(s[0]) {
      TrimStartFacts(s[1..]);
    }
  }

  lemma {:induction false} TrimEndFacts(s: string)
    ensures var t := TrimEnd(s); t <= s && (t != "" ==> !IsSpace(t[|t| - 1]))
    ensures Trimmed(s) ==> TrimEnd(s) == s
    ensures s != "" && !IsSpace(s[0]) ==> TrimEnd(s) != ""
  {
    if s != "" && IsSpace(s[|s| - 1]) {
      TrimEndFacts(s[..|s| - 1]);
    }
  }

  lemma TrimFacts(s: string)
    ensures Trimmed(Trim(s)) && (Trimmed(s) ==> Trim(s) == s)
    ensures '\n' !in s ==> '\n' !in Trim(s)
  {
    TrimStartFacts(s);
    TrimEndFacts(TrimStart(s));
  }

  lemma StripThenTrim(s: string)
    requires Trimmed(s)
    ensures Trim(StripCR(s)) == s
  {
    TrimFacts(s);
    assert s != "" ==> s[|s| - 1] != '\r';
  }

  lemma {:induction false} WordLengthIs(w: string, rest: string)
    requires NoSpace(w) && (rest != "" ==> IsSpace(rest[0]))
    ensures WordLength(w + rest) == |w|
  {
    if w == "" {
      assert w + rest == rest;
    } else {
      WordLengthIs(w[1..], rest);
      assert (w + rest)[1..] == w[1..] + rest;
    }
  }

  // ----- known_hosts -----

  function ShowHost(host: string, fingerprint: string): string {
    host + " " + fingerprint
  }

  /** Blank lines and comments are skipped, and so is a line of one word; further words are ignored. */
  function ParseHost(line: string): Option<(string, string)> {
    var t := Trim(line);
    if t == "" || t[0] == '#' then None
    else
      var n := WordLength(t);
      var u := TrimStart(t[n..]);
      if u == "" then None else Some((t[..n], u[..WordLength(u)]))
  }

  predicate IsWord(s: string) {
    s != "" && NoSpace(s)
  }

  predicate IsName(s: string) {
    IsWord(s) && s[0] != '#'
  }

  lemma ParsedHostIsGood(line: string)
    ensures ParseHost(line).Some? ==> IsName(ParseHost(line).value.0) && IsWord(ParseHost(line).value.1)
  {
    var t := Trim(line);
    TrimFacts(line);
    TrimStartFacts(t[WordLength(t)..]);
  }

  lemma HostReadsBack(host: string, fp: string)
    requires IsName(host) && IsWord(fp)
    ensures ReadsBack(ParseHost, ShowHost, host, fp)
  {
    var line := ShowHost(host, fp);
    assert line[0] == host[0] && line[|line| - 1] == fp[|fp| - 1];
    StripThenTrim(line);
    assert line == host + (" " + fp);
    WordLengthIs(host, " " + fp);
    assert line[|host|..] == " " + fp && (" " + fp)[1..] == fp;
    assert TrimStart(" " + fp) == TrimStart(fp) == fp;
    assert fp + "" == fp;
    WordLengthIs(fp, "");
    assert line[..|host|] == host && fp[..|fp|] == fp;
  }

  // ----- authorized_keys -----

  function ShowKey(fingerprint: string, comment: string): string {
    if comment == "" then fingerprint else fingerprint + " " + comment
  }

  /** The first word and, trimmed, whatever follows it. */
  function ParseKey(line: string): Option<(string, string)> {
    var t := Trim(line);
    if t == "" || t[0] == '#' then None
    else
      var n := WordLength(t);
      Some((t[..n], if n == |t| then "" else Trim(t[n + 1..])))
  }

  predicate IsComment(s: string) {
    Trimmed(s) && '\n' !in s
  }

  lemma ParsedKeyIsGood(line: string)
    requires '\n' !in line
    ensures ParseKey(line).Some? ==> IsName(ParseKey(line).value.0) && IsComment(ParseKey(line).value.1)
  {
    var t := Trim(line);
    TrimFacts(line);
    if WordLength(t) < |t| {
      TrimFacts(t[WordLength(t) + 1..]);
    }
  }

  lemma BareKeyReadsBack(fp: string)
    requires IsName(fp)
    ensures ReadsBack(ParseKey, ShowKey, fp, "")
  {
    StripThenTrim(fp);
    assert fp + "" == fp;
    WordLengthIs(fp, "");
    assert fp[..|fp|] == fp;
  }

  lemma CommentedKeyReadsBack(fp: string, comment: string)
    requires IsName(fp) && IsComment(comment) && comment != ""
    ensures ReadsBack(ParseKey, ShowKey, fp, comment)
  {
    var line := fp + " " + comment;
    assert line[0] == fp[0] && line[|line| - 1] == comment[|comment| - 1];
    StripThenTrim(line);
    TrimFacts(comment);
    assert line == fp + (" " + comment);
    WordLengthIs(fp, " " + comment);
    hide StripCR, Trim, WordLength;
    assert line[..|fp|] == fp && line[|fp| + 1..] == comment;
  }

  lemma KeyReadsBack(fp: string, comment: string)
    requires IsName(fp) && IsComment(comment)
    ensures ReadsBack(ParseKey, ShowKey, fp, comment)
  {
    if comment == "" {
      BareKeyReadsBack(fp);
    } else {
      CommentedKeyReadsBack(fp, comment);
    }
  }

  // ----- round trips -----

  lemma {:induction false} LinesHaveNoBreaks(s: string)
    ensures forall i :: 0 <= i < |Lines(s)| ==> '\n' !in Lines(s)[i]
  {
    var n := LineLength(s);
    if s != "" && n < |s| {
      LinesHaveNoBreaks(s[n + 1..]);
    } else {
      assert s[..|s|] == s;
    }
  }

  lemma {:induction false} LoadedHosts(lines: seq<string>)
    ensures forall k :: k in Loaded(ParseHost, lines) ==> IsName(k) && IsWord(Loaded(ParseHost, lines)[k])
  {
    if lines != [] {
      LoadedHosts(lines[..|lines| - 1]);
      ParsedHostIsGood(lines[|lines| - 1]);
    }
  }

  lemma {:induction false} LoadedKeys(lines: seq<string>)
    requires forall i :: 0 <= i < |lines| ==> '\n' !in lines[i]
    ensures forall k :: k in Loaded(ParseKey, lines) ==> IsName(k) && IsComment(Loaded(ParseKey, lines)[k])
  {
    if lines != [] {
      LoadedKeys(lines[..|lines| - 1]);
      ParsedKeyIsGood(lines[|lines| - 1]);
    }
  }

  /** The first line of a saved file: each store has its own, and what matters of it is that it is one
      line and a comment. */
  type Header = h: string | h != "" && h[0] == '#' && '\n' !in h witness "#"

  function HostsText(header: Header, m: Table, keys: seq<string>): string
    requires forall i :: 0 <= i < |keys| ==> keys[i] in m
  {
    header + "\n" + Printed(ShowHost, m, keys)
  }

  function KeysText(header: Header, m: Table, keys: seq<string>): string
    requires forall i :: 0 <= i < |keys| ==> keys[i] in m
  {
    header + "\n" + Printed(ShowKey, m, keys)
  }

  /** Every entry has the form the file can hold. */
  predicate StorableHosts(m: Table) {
    forall k :: k in m ==> IsName(k) && IsWord(m[k])
  }

  predicate StorableKeys(m: Table) {
    forall k :: k in m ==> IsName(k) && IsComment(m[k])
  }

  /** Loading a saved `known_hosts` gives the same table if and only if every host is a word not
      starting with '#' and every fingerprint a word. */
  lemma {:induction false} KnownHostsRoundTrip(header: Header, m: Table, keys: seq<string>)
    requires Enumerates(keys, m)
    ensures Loaded(ParseHost, Lines(HostsText(header, m, keys))) == m <==> StorableHosts(m)
  {
    LoadedHosts(Lines(HostsText(header, m, keys)));
    if StorableHosts(m) {
      forall k | k in m {
        HostReadsBack(k, m[k]);
      }
      CommentsAreSkipped(header);
      FileReadsBack(ParseHost, ShowHost, header, m, keys);
    }
  }

  /** Loading a saved `authorized_keys` gives the same table if and only if every fingerprint is a
      word not starting with '#' and every comment is trimmed and on one line. */
  lemma {:induction false} AuthorizedKeysRoundTrip(header: Header, m: Table, keys: seq<string>)
    requires Enumerates(keys, m)
    ensures Loaded(ParseKey, Lines(KeysText(header, m, keys))) == m <==> StorableKeys(m)
  {
    LinesHaveNoBreaks(KeysText(header, m, keys));
    LoadedKeys(Lines(KeysText(header, m, keys)));
    if StorableKeys(m) {
      forall k | k in m {
        KeyReadsBack(k, m[k]);
      }
      CommentsAreSkipped(header);
      FileReadsBack(ParseKey, ShowKey, header, m, keys);
    }
  }

  lemma CommentsAreSkipped(line: string)
    requires line != "" && line[0] == '#'
    ensures ParseHost(StripCR(line)).None? && ParseKey(StripCR(line)).None?
  {
    var l := StripCR(line);
    assert l != "" && l[0] == '#';
    TrimStartFacts(l);
    TrimEndFacts(l);
    assert TrimStart(l) == l;
  }

  // ----- the two stores -----

  lemma {:induction false} PrintedNext(show: Printer, m: Table, keys: seq<string>, i: nat)
    requires i < |keys| && forall j :: 0 <= j < |keys| ==> keys[j] in m
    ensures Printed(show, m, keys[..i + 1]) == Printed(show, m, keys[..i]) + (show(keys[i], m[keys[i]]) + "\n")
  {
    if i == 0 {
      assert keys[..1][1..] == [] && keys[..0] == [];
    } else {
      PrintedNext(show, m, keys[1..], i - 1);
      assert keys[..i + 1][1..] == keys[1..][..i] && keys[..i][1..] == keys[1..][..i - 1];
    }
  }

  /** The loop of `load`. */
  method Load(parse: Parser, text: Option<string>) returns (m: Table)
    ensures m == if text.None? then map[] else Loaded(parse, Lines(text.value))
  {
    m := map[];
    if text.Some? {
      var lines := Lines(text.value);
      for i := 0 to |lines|
        invariant m == Loaded(parse, lines[..i])
      {
        assert lines[..i + 1][..i] == lines[..i];
        match parse(lines[i]) {
          case None =>
          case Some((k, v)) => m := m[k := v];
        }
      }
      assert lines[..|lines|] == lines;
    }
  }

  /** The loop of `save`, over the entries in the order `keys`. */
  method Save(show: Printer, header: string, m: Table, keys: seq<string>) returns (out: string)
    requires Enumerates(keys, m)
    ensures out == header + "\n" + Printed(show, m, keys)
  {
    out := header + "\n";
    for i := 0 to |keys|
      invariant out == header + "\n" + Printed(show, m, keys[..i])
    {
      PrintedNext(show, m, keys, i);
      out := out + (show(keys[i], m[keys[i]]) + "\n");
    }
    assert keys[..|keys|] == keys;
  }

  lemma StorableSplit(m: Table, host: string)
    requires host in m
    ensures StorableHosts(m) <==> IsName(host) && IsWord(m[host]) && StorableHosts(m - {host})
  {
    assert forall k :: k in m && k != host ==> k in m - {host} && (m - {host})[k] == m[k];
  }

  class KnownHosts {
    const header: Header
    var entries: Table

    constructor (header: Header, entries: Table)
      ensures this.header == header && this.entries == entries
    {
      this.header := header;
      this.entries := entries;
    }

    /** Pins one host and leaves the others; the file then saved loads as exactly this table if and
        only if the new pin and all others have the form the file can hold. */
    method Insert(hostport: string, fingerprint: string)
      modifies this
      ensures entries == old(entries)[hostport := fingerprint]
      ensures forall keys | Enumerates(keys, entries) ::
                Loaded(ParseHost, Lines(HostsText(header, entries, keys))) == entries <==>
                IsName(hostport) && IsWord(fingerprint) && StorableHosts(old(entries) - {hostport})
    {
      entries := entries[hostport := fingerprint];
      assert old(entries) - {hostport} == entries - {hostport};
      forall keys | Enumerates(keys, entries)
        ensures Loaded(ParseHost, Lines(HostsText(header, entries, keys))) == entries <==>
                IsName(hostport) && IsWord(fingerprint) && StorableHosts(entries - {hostport})
      {
        KnownHostsRoundTrip(header, entries, keys);
        StorableSplit(entries, hostport);
      }
    }

    /** Saves and loads again, as the next run of the program does: unchanged if and only if every
        host and fingerprint has the form the file can hold. */
    method Reload(keys: seq<string>)
      requires Enumerates(keys, entries)
      modifies this
      ensures entries == old(entries) <==> StorableHosts(old(entries))
    {
      KnownHostsRoundTrip(header, entries, keys);
      var text := Save(ShowHost, header, entries, keys);
      entries := Load(ParseHost, Some(text));
    }
  }

  class AuthorizedKeys {
    const header: Header
    var fingerprints: Table

    constructor (header: Header, fingerprints: Table)
      ensures this.header == header && this.fingerprints == fingerprints
    {
      this.header := header;
      this.fingerprints := fingerprints;
    }

    /** `authorize`: adds the key and saves; loading the text gives exactly the new table if and
        only if every key and comment has the form the file can hold. */
    method Authorize(fingerprint: string, comment: string, keys: seq<string>) returns (text: string)
      requires Enumerates(keys, fingerprints[fingerprint := comment])
      modifies this
      ensures fingerprints == old(fingerprints)[fingerprint := comment]
      ensures Loaded(ParseKey, Lines(text)) == fingerprints <==> StorableKeys(fingerprints)
    {
      fingerprints := fingerprints[fingerprint := comment];
      AuthorizedKeysRoundTrip(header, fingerprints, keys);
      text := Save(ShowKey, header, fingerprints, keys);
    }
  }
}
