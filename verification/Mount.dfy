/** The whole client against the server: many open handles sharing one write buffer, one FUSE
    thread, one background task, reconnects at any moment, and a server that finds the file of
    a Write only through its session's handle table.

    Assumed of a run: the open RPC and `register_open`'s stamp are one step, so are installing
    a connection and bumping the generation; session epochs differ; two handles open at once
    name different files. A path may be opened again while the background task is still flushing
    a handle on it that was released; `intruded` remembers whose file that reached. */
module Mount {
  import opened FileModel
  import opened Buffers
  import opened HandleProtocol
  import opened HandleIds

  /** What a server handle stands for. */
  datatype Entry = Entry(path: Path, append: bool)

  /** A server handle as the client holds it; `issuer` is the generation whose session issued it. */
  datatype Target = Target(handle: nat, issuer: nat, entry: Entry)

  datatype OpenFile = OpenFile(target: Target, openedGen: nat)

  /** Where an actor is inside `ensure_live`, `flush_one`, the age-drop loop or flush(). */
  datatype Phase =
    | Idle
    | Resolving(fh: Fh, cur: nat)                       // stale handle, open RPC outstanding
    | Reopened(fh: Fh, cur: nat, target: Target)        // reply in, not yet stamped
    | Restamped(fh: Fh, target: Target)                 // O_APPEND: queue not yet looked at
    | Ready(fh: Fh, target: Target)                     // ensure_live returned
    | Flushing(fh: Fh, target: Target, flight: Flight, rpc: Option<Entry>)  // snapshot taken, sending; what the
                                                        // server found for the Write RPC in progress
    | ToMark(fh: Fh, lost: Option<nat>)                 // dropped, sticky error not yet set
    | Answering(fh: Fh, err: Option<int>)               // drained, sticky error not yet taken

  datatype World = World(
    hardCap: nat,
    files: map<Path, Content>,
    sessions: seq<Session<Entry>>,   // sessions[g] is the connection of generation g
    open: map<Fh, OpenFile>,
    nextFh: Fh,
    bufs: Table,
    errors: set<Fh>,
    fuse: Phase,
    bg: Phase,
    ledgers: map<Fh, Ledger>,
    intruded: set<Fh>)               // handles whose file a released handle's flush has written to
  {
    function Phase(who: Who): Phase {
      if who.Fuse? then fuse else bg
    }

    function Becomes(who: Who, p: Phase): World {
      if who.Fuse? then this.(fuse := p) else this.(bg := p)
    }

    /** The reconnect generation. */
    function Gen(): int {
      |sessions| - 1
    }

    function Queue(fh: Fh): seq<Chunk> {
      Queued(Buffers.Entry(bufs, fh))
    }
  }

  datatype Step =
    | Open(path: Path, append: bool)
    | Write(fh: Fh, c: Chunk)
    | Reconnect(epoch: nat)
    | Resolve(who: Who, fh: Fh)
    | ReopenReply
    | ReopenError
    | Stamp
    | DropUnreplayable
    | Abandon(who: Who)
    | BeginFlush(who: Who)
    | StartRpc(who: Who, via: nat)             // the server of connection via looks the handle up
    | DeliverRun(who: Who)                     // the run landed and was acknowledged
    | FailRun(who: Who, k: nat)                // k bytes landed, none if no handle was found
    | AckFlush(who: Who)
    | DropAged(fh: Fh)
    | SetSticky
    | SawEmpty(fh: Fh)
    | GaveUp(fh: Fh, errno: int)
    | Answer
    | Release(fh: Fh, heard: bool)             // whether the server heard of it

  function NextRun(fl: Flight): Run
    requires fl.sent < |fl.runs|
  {
    fl.runs[fl.sent]
  }

  predicate CanIssue(w: World) {
    w.sessions != [] && w.sessions[|w.sessions| - 1].issued < EPOCHS
  }

  predicate InFlight(p: Phase) {
    p.Flushing? && p.flight.sent < |p.flight.runs|
  }

  /** The connection of generation `via` knows the handle, and its file exists. */
  predicate Knows(w: World, via: nat, handle: nat) {
    && via < |w.sessions| && handle in w.sessions[via].table
    && w.sessions[via].table[handle].path in w.files
  }

  predicate Allowed(w: World, s: Step) {
    match s
    case Open(path, append) =>
      && w.fuse.Idle? && CanIssue(w) && path in w.files
      && (forall h :: h in w.open ==> w.open[h].target.entry.path != path)
    case Write(fh, _) => w.fuse.Idle? && fh in w.open && fh in w.ledgers
    case Reconnect(epoch) => epoch < EPOCHS && forall v :: 0 <= v < |w.sessions| ==> w.sessions[v].epoch != epoch
    case Resolve(who, fh) =>
      w.Phase(who).Idle? && fh in w.open && (w.open[fh].openedGen == w.Gen() || (who.Fuse? && w.sessions != []))
    case ReopenReply => w.fuse.Resolving? && w.fuse.fh in w.open && CanIssue(w)
    case ReopenError => w.fuse.Resolving?
    case Stamp => w.fuse.Reopened?
    case DropUnreplayable => w.fuse.Restamped? && w.fuse.fh in w.ledgers
    case Abandon(who) => w.Phase(who).Ready?
    case BeginFlush(who) =>
      && w.Phase(who).Ready? && CanBegin(Buffers.Entry(w.bufs, w.Phase(who).fh))
      && w.Phase(who).fh in w.ledgers
    case StartRpc(who, via) =>
      && InFlight(w.Phase(who)) && w.Phase(who).rpc.None? && NextRun(w.Phase(who).flight).data != []
      && Knows(w, via, w.Phase(who).target.handle)
    case DeliverRun(who) =>
      && InFlight(w.Phase(who)) && w.Phase(who).fh in w.ledgers
      && w.Phase(who).rpc.Some? && NextRun(w.Phase(who).flight).data != []
    case FailRun(who, k) =>
      && InFlight(w.Phase(who)) && w.Phase(who).fh in w.ledgers
      && k <= |NextRun(w.Phase(who).flight).data| && (k > 0 ==> w.Phase(who).rpc.Some?)
    case AckFlush(who) =>
      && w.Phase(who).Flushing? && w.Phase(who).fh in w.ledgers
      && w.Phase(who).flight.sent == |w.Phase(who).flight.runs|
    case DropAged(fh) => w.bg.Idle? && fh in w.bufs && fh in w.ledgers
    case SetSticky => w.bg.ToMark?
    case SawEmpty(fh) => w.fuse.Idle? && fh in w.open && w.Queue(fh) == []
    case GaveUp(fh, _) => w.fuse.Idle? && fh in w.open
    case Answer => w.fuse.Answering? && w.fuse.fh in w.ledgers
    case Release(fh, _) => w.fuse.Idle? && fh in w.open && w.sessions != []
  }

  // ----- steps -----

  function IssueFor(w: World, e: Entry): World
    requires CanIssue(w)
  {
    var g := |w.sessions| - 1;
    w.(sessions := w.sessions[g := w.sessions[g].Issue(e)])
  }

  function NewTarget(w: World, e: Entry): Target
    requires CanIssue(w)
  {
    Target(w.sessions[|w.sessions| - 1].NextId(), |w.sessions| - 1, e)
  }

  /** `register_open`: the new handle enters the client's tables. */
  function Entered(w: World, t: Target): World
    requires w.sessions != [] && t.entry.path in w.files
  {
    w.(open := w.open[w.nextFh := OpenFile(t, w.Gen())],
    ledgers := w.ledgers[w.nextFh := Opened(w.files[t.entry.path])],
    nextFh := w.nextFh + 1)
  }

  function OpenStep(w: World, path: Path, append: bool): World
    requires Allowed(w, Open(path, append))
  {
    Entered(IssueFor(w, Entry(path, append)), NewTarget(w, Entry(path, append)))
  }

  ghost function WriteStep(w: World, fh: Fh, c: Chunk): World
    requires Allowed(w, Write(fh, c))
  {
    if TableBytes(w.bufs) + |c.run.data| > w.hardCap
    then w.(errors := w.errors + {fh})
    else w.(bufs := Put(w.bufs, fh, Some(Enqueued(Buffers.Entry(w.bufs, fh), c))),
      ledgers := w.ledgers[fh := w.ledgers[fh].(accepted := w.ledgers[fh].accepted + [c])])
  }

  function DropStep(w: World, fh: Fh): World
    requires fh in w.ledgers
  {
    w.(bufs := w.bufs - {fh}, ledgers := w.ledgers[fh := LedgerDrop(w.ledgers[fh], |w.Queue(fh)|)])
  }

  function DropUnreplayableStep(w: World): World
    requires Allowed(w, DropUnreplayable)
  {
    var fh := w.fuse.fh;
    if fh !in w.bufs then w.(fuse := Ready(fh, w.fuse.target))
    else
      var l := LedgerDrop(w.ledgers[fh], |w.Queue(fh)|);
      DropStep(w, fh).(
      ledgers := w.ledgers[fh := l.(undisturbed := l.undisturbed && !(w.bg.Flushing? && w.bg.fh == fh))],
      errors := if LastWithData(w.Queue(fh)).Some? then w.errors + {fh} else w.errors,
      fuse := Ready(fh, w.fuse.target))
  }

  function BeginStep(w: World, who: Who): World
    requires Allowed(w, BeginFlush(who))
  {
    var fh, l := w.Phase(who).fh, w.ledgers[w.Phase(who).fh];
    w.(bufs := w.bufs[fh := w.bufs[fh].(sending := true)],
    ledgers := w.ledgers[fh := LedgerBegin(l, w.Queue(fh))])
    .Becomes(who, Flushing(fh, w.Phase(who).target, FlightOf(l, w.Queue(fh)), None))
  }

  function StartStep(w: World, who: Who, via: nat): World
    requires Allowed(w, StartRpc(who, via))
  {
    var p := w.Phase(who);
    w.Becomes(who, Flushing(p.fh, p.target, p.flight, Some(w.sessions[via].table[p.target.handle])))
  }

  /** Other handles open on the file. */
  function Others(w: World, fh: Fh, path: Path): set<Fh> {
    set h | h in w.open && h != fh && w.open[h].target.entry.path == path
  }

  /** The server's side of a Write whose handle was looked up: the handle decides file and mode. */
  function ServerWrite(w: World, fh: Fh, rpc: Option<Entry>, r: Run): World {
    if rpc.None? || rpc.value.path !in w.files || r.data == [] then w
    else
      var e := rpc.value;
      w.(files := w.files[e.path := Store(e.append, w.files[e.path], r)],
      intruded := w.intruded + Others(w, fh, e.path))
  }

  function LandStep(w: World, who: Who, r: Run): World
    requires w.Phase(who).Flushing? && w.Phase(who).fh in w.ledgers
  {
    var fh, fl := w.Phase(who).fh, w.Phase(who).flight;
    ServerWrite(w, fh, w.Phase(who).rpc, r)
    .(ledgers := w.ledgers[fh := LedgerLand(w.ledgers[fh], fl, r.data)])
  }

  function DeliverStep(w: World, who: Who): World
    requires Allowed(w, DeliverRun(who))
  {
    var p := w.Phase(who);
    LandStep(w, who, NextRun(p.flight))
    .Becomes(who, Flushing(p.fh, p.target, p.flight.(sent := p.flight.sent + 1), None))
  }

  /** The client's side of a failed send; a released handle counts as positioned. */
  function AfterFailure(w: World, who: Who, fh: Fh): World
    requires fh in w.ledgers
  {
    if !(fh in w.open && w.open[fh].target.entry.append)
    then w.(bufs := Put(w.bufs, fh, FailedEntry(Buffers.Entry(w.bufs, fh)))).Becomes(who, Idle)
    else if who.Fuse? then DropStep(w, fh).(errors := w.errors + {fh}, fuse := Idle)
    else DropStep(w, fh).(bg := ToMark(fh, LostBy(w.ledgers[fh], w.Queue(fh))))
  }

  function FailStep(w: World, who: Who, k: nat): World
    requires Allowed(w, FailRun(who, k))
  {
    var p := w.Phase(who);
    AfterFailure(LandStep(w, who, Cut(NextRun(p.flight), k)), who, p.fh)
  }

  ghost function AckStep(w: World, who: Who): World
    requires Allowed(w, AckFlush(who))
  {
    var fh, fl := w.Phase(who).fh, w.Phase(who).flight;
    var removed := if fl.count < |w.Queue(fh)| then fl.count else |w.Queue(fh)|;
    w.(bufs := Put(w.bufs, fh, AckedEntry(Buffers.Entry(w.bufs, fh), fl.count)),
    ledgers := w.ledgers[fh := LedgerAck(w.ledgers[fh], fl, removed)])
    .Becomes(who, Idle)
  }

  function DropAgedStep(w: World, fh: Fh): World
    requires fh in w.ledgers
  {
    var lost := LostBy(w.ledgers[fh], w.Queue(fh));
    DropStep(w, fh).(bg := if lost.Some? then ToMark(fh, lost) else Idle)
  }

  function AnswerStep(w: World): World
    requires Allowed(w, Answer)
  {
    var fh, l := w.fuse.fh, w.ledgers[w.fuse.fh];
    var failed := FlushReply(w.fuse.err, fh in w.errors).Some?;
    w.(errors := w.errors - {fh}, fuse := Idle,
    ledgers := w.ledgers[fh := if failed then l.(reported := |l.accepted|) else l])
  }

  /** A failed release RPC is only logged: the server keeps the handle. */
  function ReleaseStep(w: World, fh: Fh, heard: bool): World
    requires Allowed(w, Release(fh, heard))
  {
    var g := |w.sessions| - 1;
    var forgotten := w.sessions[g].(table := w.sessions[g].table - {w.open[fh].target.handle});
    w.(open := w.open - {fh}, errors := w.errors - {fh}, bufs := w.bufs - {fh},
    sessions := if heard then w.sessions[g := forgotten] else w.sessions)
  }

  ghost function After(w: World, s: Step): World
    requires Allowed(w, s)
  {
    match s
    case Open(path, append) => OpenStep(w, path, append)
    case Write(fh, c) => WriteStep(w, fh, c)
    case Reconnect(epoch) => w.(sessions := w.sessions + [Session(epoch, 0, map[])])
    case Resolve(who, fh) =>
      w.Becomes(who, if w.open[fh].openedGen == w.Gen() then Ready(fh, w.open[fh].target)
                     else Resolving(fh, |w.sessions| - 1))
    case ReopenReply =>
      var e := w.open[w.fuse.fh].target.entry;
      IssueFor(w, e).(fuse := Reopened(w.fuse.fh, w.fuse.cur, NewTarget(w, e)))
    case ReopenError => w.(fuse := Idle)
    case Stamp =>
      var p := w.fuse;
      w.(open := w.open[p.fh := OpenFile(p.target, p.cur)],
      fuse := if p.target.entry.append then Restamped(p.fh, p.target) else Ready(p.fh, p.target))
    case DropUnreplayable => DropUnreplayableStep(w)
    case Abandon(who) => w.Becomes(who, Idle)
    case BeginFlush(who) => BeginStep(w, who)
    case StartRpc(who, via) => StartStep(w, who, via)
    case DeliverRun(who) => DeliverStep(w, who)
    case FailRun(who, k) => FailStep(w, who, k)
    case AckFlush(who) => AckStep(w, who)
    case DropAged(fh) => DropAgedStep(w, fh)
    case SetSticky => w.(errors := w.errors + {w.bg.fh}, bg := Idle)
    case SawEmpty(fh) => w.(fuse := Answering(fh, None))
    case GaveUp(fh, errno) => w.(fuse := Answering(fh, Some(errno)))
    case Answer => AnswerStep(w)
    case Release(fh, heard) => ReleaseStep(w, fh, heard)
  }

  // ----- what each step leaves alone -----

  /** The client's handles, and the history of foreign bytes. */
  predicate SameHandles(w: World, w': World) {
    w'.open == w.open && w'.nextFh == w.nextFh
  }

  predicate SameFiles(w: World, w': World) {
    w'.files == w.files && w'.intruded == w.intruded
  }

  lemma WriteLeaves(w: World, fh: Fh, c: Chunk)
    requires Allowed(w, Write(fh, c))
    ensures SameHandles(w, WriteStep(w, fh, c)) && SameFiles(w, WriteStep(w, fh, c))
  {
  }

  lemma BeginLeaves(w: World, who: Who)
    requires Allowed(w, BeginFlush(who))
    ensures SameHandles(w, BeginStep(w, who)) && SameFiles(w, BeginStep(w, who))
  {
  }

  lemma StartLeaves(w: World, who: Who, via: nat)
    requires Allowed(w, StartRpc(who, via))
    ensures SameHandles(w, StartStep(w, who, via)) && SameFiles(w, StartStep(w, who, via))
  {
  }

  lemma FailureLeaves(w: World, who: Who, fh: Fh)
    requires fh in w.ledgers
    ensures SameHandles(w, AfterFailure(w, who, fh)) && SameFiles(w, AfterFailure(w, who, fh))
  {
  }

  lemma LandingLeaves(w: World, who: Who, r: Run)
    requires w.Phase(who).Flushing? && w.Phase(who).fh in w.ledgers
    ensures SameHandles(w, LandStep(w, who, r))
    ensures SameFiles(ServerWrite(w, w.Phase(who).fh, w.Phase(who).rpc, r), LandStep(w, who, r))
  {
    hide Store, LedgerLand, Others;
  }

  /** The run the step sends, as far as it lands. */
  function PartOf(w: World, s: Step): Run
    requires Allowed(w, s) && (s.DeliverRun? || s.FailRun?)
  {
    var r := NextRun(w.Phase(s.who).flight);
    if s.DeliverRun? then r else Cut(r, s.k)
  }

  lemma DeliverLeaves(w: World, who: Who)
    requires Allowed(w, DeliverRun(who))
    ensures SameHandles(w, DeliverStep(w, who))
    ensures SameFiles(LandStep(w, who, NextRun(w.Phase(who).flight)), DeliverStep(w, who))
  {
    hide LandStep;
    LandingLeaves(w, who, NextRun(w.Phase(who).flight));
  }

  lemma FailLeaves(w: World, who: Who, k: nat)
    requires Allowed(w, FailRun(who, k))
    ensures SameHandles(w, FailStep(w, who, k))
    ensures SameFiles(LandStep(w, who, Cut(NextRun(w.Phase(who).flight), k)), FailStep(w, who, k))
  {
    hide AfterFailure;
    LandingLeaves(w, who, Cut(NextRun(w.Phase(who).flight), k));
    FailureLeaves(LandStep(w, who, Cut(NextRun(w.Phase(who).flight), k)), who, w.Phase(who).fh);
  }

  lemma AckLeaves(w: World, who: Who)
    requires Allowed(w, AckFlush(who))
    ensures SameHandles(w, AckStep(w, who)) && SameFiles(w, AckStep(w, who))
  {
  }

  lemma UnreplayableLeaves(w: World)
    requires Allowed(w, DropUnreplayable)
    ensures SameHandles(w, DropUnreplayableStep(w)) && SameFiles(w, DropUnreplayableStep(w))
  {
  }

  lemma AgedLeaves(w: World, fh: Fh)
    requires fh in w.ledgers
    ensures SameHandles(w, DropAgedStep(w, fh)) && SameFiles(w, DropAgedStep(w, fh))
  {
  }

  lemma AnswerLeaves(w: World)
    requires Allowed(w, Answer)
    ensures SameHandles(w, AnswerStep(w)) && SameFiles(w, AnswerStep(w))
  {
  }

  /** Only opening, stamping and releasing touch the client's handles. */
  lemma HandlesSame(w: World, s: Step)
    requires Allowed(w, s) && !s.Open? && !s.Stamp? && !s.Release?
    ensures SameHandles(w, After(w, s))
  {
    hide WriteStep, BeginStep, StartStep, DeliverStep, FailStep, AckStep, DropUnreplayableStep, DropAgedStep,
      AnswerStep;
    match s {
      case Write(fh, c) => WriteLeaves(w, fh, c);
      case BeginFlush(who) => BeginLeaves(w, who);
      case StartRpc(who, via) => StartLeaves(w, who, via);
      case DeliverRun(who) => DeliverLeaves(w, who);
      case FailRun(who, k) => FailLeaves(w, who, k);
      case AckFlush(who) => AckLeaves(w, who);
      case DropUnreplayable => UnreplayableLeaves(w);
      case DropAged(fh) => AgedLeaves(w, fh);
      case Answer => AnswerLeaves(w);
      case _ =>
    }
  }

  /** Only landings touch files. */
  lemma FilesSame(w: World, s: Step)
    requires Allowed(w, s) && !s.DeliverRun? && !s.FailRun?
    ensures SameFiles(w, After(w, s))
  {
    hide WriteStep, BeginStep, StartStep, AckStep, DropUnreplayableStep, DropAgedStep, AnswerStep;
    match s {
      case Write(fh, c) => WriteLeaves(w, fh, c);
      case BeginFlush(who) => BeginLeaves(w, who);
      case StartRpc(who, via) => StartLeaves(w, who, via);
      case AckFlush(who) => AckLeaves(w, who);
      case DropUnreplayable => UnreplayableLeaves(w);
      case DropAged(fh) => AgedLeaves(w, fh);
      case Answer => AnswerLeaves(w);
      case _ =>
    }
  }

  /** And they touch what the server writes. */
  lemma LandingFiles(w: World, s: Step)
    requires Allowed(w, s) && (s.DeliverRun? || s.FailRun?)
    ensures var p := w.Phase(s.who);
            p.Flushing? && SameFiles(ServerWrite(w, p.fh, p.rpc, PartOf(w, s)), After(w, s))
  {
    hide ServerWrite, LandStep, DeliverStep, FailStep;
    var r := PartOf(w, s);
    LandingLeaves(w, s.who, r);
    if s.DeliverRun? {
      DeliverLeaves(w, s.who);
    } else {
      FailLeaves(w, s.who, s.k);
    }
  }

  lemma NextFhStep(w: World, s: Step)
    requires Allowed(w, s)
    ensures After(w, s).nextFh == if s.Open? then w.nextFh + 1 else w.nextFh
  {
    if !s.Open? && !s.Stamp? && !s.Release? {
      HandlesSame(w, s);
    }
  }

  // ----- what every step keeps of handles, sessions and files -----

  ghost predicate SessionsOk(ss: seq<Session<Entry>>) {
    && ss != []
    && (forall v :: 0 <= v < |ss| ==> ss[v].Ok())
    && (forall u, v :: 0 <= u < v < |ss| ==> ss[u].epoch != ss[v].epoch)
  }

  /** The handle was issued by session `issuer`, and if still held there it stands for `entry`. */
  ghost predicate TargetOk(ss: seq<Session<Entry>>, t: Target) {
    && t.issuer < |ss| && ss[t.issuer].Issued(t.handle)
    && (t.handle in ss[t.issuer].table ==> ss[t.issuer].table[t.handle] == t.entry)
  }

  ghost predicate OpenOk(w: World, fh: Fh)
    requires fh in w.open
  {
    && fh < w.nextFh && fh in w.ledgers
    && TargetOk(w.sessions, w.open[fh].target)
    && w.open[fh].openedGen <= w.open[fh].target.issuer
    && w.open[fh].target.entry.path in w.files
  }

  ghost predicate Distinct(w: World) {
    forall g, h :: g in w.open && h in w.open && g != h ==>
                     w.open[g].target.entry.path != w.open[h].target.entry.path
  }

  ghost predicate SameEntry(w: World, fh: Fh, t: Target) {
    TargetOk(w.sessions, t) && fh in w.open && t.entry == w.open[fh].target.entry
  }

  /** The server found what the client opened. */
  ghost predicate RpcOk(w: World, t: Target, rpc: Option<Entry>) {
    rpc.Some? ==> rpc.value == t.entry && t.entry.path in w.files
  }

  /** The handle may have been released since the flush began. */
  ghost predicate FlushOk(w: World, fh: Fh, t: Target) {
    && TargetOk(w.sessions, t) && fh in w.ledgers && fh < w.nextFh
    && (fh in w.open ==> t.entry == w.open[fh].target.entry)
  }

  ghost predicate FuseOk(w: World, p: Phase) {
    match p
    case Idle => true
    case Resolving(fh, cur) => fh in w.open && cur < |w.sessions|
    case Reopened(fh, cur, t) => SameEntry(w, fh, t) && cur <= t.issuer
    case Restamped(fh, t) => SameEntry(w, fh, t) && t.entry.append
    case Ready(fh, t) => SameEntry(w, fh, t)
    case Flushing(fh, t, _, rpc) => SameEntry(w, fh, t) && RpcOk(w, t, rpc)
    case ToMark(_, _) => false
    case Answering(fh, _) => fh in w.open
  }

  ghost predicate BackgroundOk(w: World, p: Phase) {
    match p
    case Idle => true
    case Ready(fh, t) =>
      TargetOk(w.sessions, t) && fh < w.nextFh && (fh in w.open ==> t.entry == w.open[fh].target.entry)
    case Flushing(fh, t, _, rpc) => FlushOk(w, fh, t) && RpcOk(w, t, rpc)
    case ToMark(fh, _) => fh < w.nextFh
    case _ => false
  }

  ghost predicate PhaseOk(w: World, who: Who, p: Phase) {
    if who.Fuse? then FuseOk(w, p) else BackgroundOk(w, p)
  }

  ghost predicate HandlesOk(w: World) {
    && SessionsOk(w.sessions)
    && (forall fh :: fh in w.open ==> OpenOk(w, fh))
    && Distinct(w)
    && w.bufs.Keys <= w.open.Keys
    && (forall fh :: fh in w.errors ==> fh < w.nextFh)
    && (forall fh :: fh in w.intruded ==> fh < w.nextFh)
  }

  ghost predicate WorldOk(w: World) {
    HandlesOk(w) && PhaseOk(w, Fuse, w.fuse) && PhaseOk(w, Background, w.bg)
  }

  // ----- sessions -----

  lemma IssueKeeps(ss: seq<Session<Entry>>, e: Entry)
    requires SessionsOk(ss) && ss[|ss| - 1].issued < EPOCHS
    ensures var g := |ss| - 1;
            var ss' := ss[g := ss[g].Issue(e)];
            && SessionsOk(ss') && TargetOk(ss', Target(ss[g].NextId(), g, e))
            && (forall t :: TargetOk(ss, t) ==> TargetOk(ss', t))
  {
    IssueOk(ss[|ss| - 1], e);
  }

  lemma ReconnectKeeps(ss: seq<Session<Entry>>, epoch: nat)
    requires SessionsOk(ss) && epoch < EPOCHS && forall v :: 0 <= v < |ss| ==> ss[v].epoch != epoch
    ensures SessionsOk(ss + [Session(epoch, 0, map[])])
    ensures forall t :: TargetOk(ss, t) ==> TargetOk(ss + [Session(epoch, 0, map[])], t)
  {
  }

  lemma ForgetKeeps(ss: seq<Session<Entry>>, id: nat)
    requires SessionsOk(ss)
    ensures var g := |ss| - 1;
            var ss' := ss[g := ss[g].(table := ss[g].table - {id})];
            SessionsOk(ss') && (forall t :: TargetOk(ss, t) ==> TargetOk(ss', t))
  {
  }

  /** Only the session that issued a handle can find it, and finds what was opened. */
  lemma {:induction false} OnlyIssuerKnows(w: World, t: Target, via: nat)
    requires SessionsOk(w.sessions) && TargetOk(w.sessions, t) && Knows(w, via, t.handle)
    ensures via == t.issuer && w.sessions[via].table[t.handle] == t.entry
  {
    var ss := w.sessions;
    if via != t.issuer {
      assert ss[via].epoch != ss[t.issuer].epoch;
      OtherSessionMisses(ss[t.issuer], ss[via], t.handle);
    }
  }

  // ----- what is not touched stays -----

  lemma PhaseKeeps(w: World, w': World, who: Who, p: Phase)
    requires PhaseOk(w, who, p)
    requires w'.sessions == w.sessions && w'.open == w.open && w'.nextFh == w.nextFh
    requires w.files.Keys <= w'.files.Keys && w.ledgers.Keys <= w'.ledgers.Keys
    ensures PhaseOk(w', who, p)
  {
    hide TargetOk;
  }

  lemma HandlesKeep(w: World, w': World)
    requires HandlesOk(w)
    requires w'.sessions == w.sessions && w'.open == w.open && w'.nextFh == w.nextFh
    requires w.files.Keys <= w'.files.Keys && w.ledgers.Keys <= w'.ledgers.Keys
    requires w'.bufs.Keys <= w'.open.Keys
    requires forall fh :: fh in w'.errors ==> fh < w'.nextFh
    requires forall fh :: fh in w'.intruded ==> fh < w'.nextFh
    ensures HandlesOk(w')
  {
    hide TargetOk, SessionsOk;
    forall fh | fh in w'.open
      ensures OpenOk(w', fh)
    {
      assert OpenOk(w, fh);
    }
  }

  /** Handles, sessions and phases as before; files, queues, errors and histories may differ. */
  lemma HistoryKeeps(w: World, w': World)
    requires WorldOk(w) && w'.fuse == w.fuse && w'.bg == w.bg
    requires w'.sessions == w.sessions && w'.open == w.open && w'.nextFh == w.nextFh
    requires w.files.Keys <= w'.files.Keys && w.ledgers.Keys <= w'.ledgers.Keys
    requires w'.bufs.Keys <= w'.open.Keys
    requires forall fh :: fh in w'.errors ==> fh < w'.nextFh
    requires forall fh :: fh in w'.intruded ==> fh < w'.nextFh
    ensures WorldOk(w')
  {
    HandlesKeep(w, w');
    hide PhaseOk, HandlesOk;
    PhaseKeeps(w, w', Fuse, w.fuse);
    PhaseKeeps(w, w', Background, w.bg);
  }

  lemma BecomesKeeps(w: World, who: Who, p: Phase)
    requires WorldOk(w) && PhaseOk(w, who, p)
    ensures WorldOk(w.Becomes(who, p))
  {
    var w' := w.Becomes(who, p);
    HandlesKeep(w, w');
    hide PhaseOk, HandlesOk;
    PhaseKeeps(w, w', who, p);
    if who.Fuse? {
      PhaseKeeps(w, w', Background, w.bg);
    } else {
      PhaseKeeps(w, w', Fuse, w.fuse);
    }
  }

  // ----- steps that change handles or sessions -----

  /** The same handles open on the same files. */
  ghost predicate SameEntries(a: map<Fh, OpenFile>, b: map<Fh, OpenFile>) {
    a.Keys == b.Keys && forall h :: h in a ==> a[h].target.entry == b[h].target.entry
  }

  lemma SessionsPhase(w: World, w': World, who: Who, p: Phase)
    requires PhaseOk(w, who, p) && |w.sessions| <= |w'.sessions|
    requires forall t :: TargetOk(w.sessions, t) ==> TargetOk(w'.sessions, t)
    requires SameEntries(w.open, w'.open)
    requires w'.files == w.files && w'.nextFh == w.nextFh && w.ledgers.Keys <= w'.ledgers.Keys
    ensures PhaseOk(w', who, p)
  {
    hide TargetOk;
  }

  lemma SessionsHandles(w: World, w': World)
    requires HandlesOk(w) && SessionsOk(w'.sessions)
    requires forall t :: TargetOk(w.sessions, t) ==> TargetOk(w'.sessions, t)
    requires w'.open == w.open && w'.files == w.files && w'.nextFh == w.nextFh && w'.ledgers == w.ledgers
    requires w'.bufs == w.bufs && w'.errors == w.errors && w'.intruded == w.intruded
    ensures HandlesOk(w')
  {
    hide TargetOk, SessionsOk;
    forall fh | fh in w'.open
      ensures OpenOk(w', fh)
    {
      assert OpenOk(w, fh);
    }
  }

  /** Sessions may learn and forget handles; every handle the client holds stays what it is. */
  lemma SessionsKeep(w: World, w': World)
    requires WorldOk(w) && SessionsOk(w'.sessions) && |w.sessions| <= |w'.sessions|
    requires forall t :: TargetOk(w.sessions, t) ==> TargetOk(w'.sessions, t)
    requires w' == w.(sessions := w'.sessions)
    ensures WorldOk(w')
  {
    SessionsHandles(w, w');
    hide PhaseOk, HandlesOk, SessionsOk, TargetOk;
    SessionsPhase(w, w', Fuse, w.fuse);
    SessionsPhase(w, w', Background, w.bg);
  }

  lemma IssueForKeeps(w: World, e: Entry)
    requires WorldOk(w) && CanIssue(w)
    ensures WorldOk(IssueFor(w, e)) && TargetOk(IssueFor(w, e).sessions, NewTarget(w, e))
  {
    IssueKeeps(w.sessions, e);
    hide HandlesOk, PhaseOk, SessionsOk, TargetOk;
    assert SessionsOk(w.sessions) by {
      SessionsAreOk(w);
    }
    SessionsKeep(w, IssueFor(w, e));
  }

  lemma SessionsAreOk(w: World)
    requires WorldOk(w)
    ensures SessionsOk(w.sessions)
  {
    hide SessionsOk, OpenOk, PhaseOk;
  }

  lemma EnterKeepsHandles(w: World, t: Target)
    requires HandlesOk(w) && TargetOk(w.sessions, t) && t.issuer == |w.sessions| - 1 && t.entry.path in w.files
    requires forall h :: h in w.open ==> w.open[h].target.entry.path != t.entry.path
    ensures HandlesOk(Entered(w, t))
  {
    hide TargetOk, SessionsOk;
    forall fh | fh in Entered(w, t).open
      ensures OpenOk(Entered(w, t), fh)
    {
      if fh != w.nextFh { assert OpenOk(w, fh); }
    }
  }

  lemma EnterKeepsBackground(w: World, t: Target)
    requires w.sessions != [] && t.entry.path in w.files && BackgroundOk(w, w.bg)
    ensures BackgroundOk(Entered(w, t), w.bg)
  {
    hide TargetOk;
  }

  lemma EnterKeeps(w: World, t: Target)
    requires WorldOk(w) && w.fuse.Idle?
    requires TargetOk(w.sessions, t) && t.issuer == |w.sessions| - 1 && t.entry.path in w.files
    requires forall h :: h in w.open ==> w.open[h].target.entry.path != t.entry.path
    ensures WorldOk(Entered(w, t))
  {
    hide HandlesOk, BackgroundOk, TargetOk;
    EnterKeepsHandles(w, t);
    EnterKeepsBackground(w, t);
  }

  lemma OpenKeeps(w: World, path: Path, append: bool)
    requires WorldOk(w) && Allowed(w, Open(path, append))
    ensures WorldOk(OpenStep(w, path, append))
  {
    hide WorldOk, TargetOk, Entered;
    IssueForKeeps(w, Entry(path, append));
    EnterKeeps(IssueFor(w, Entry(path, append)), NewTarget(w, Entry(path, append)));
  }

  lemma ReopenReplyKeeps(w: World)
    requires WorldOk(w) && Allowed(w, ReopenReply)
    ensures WorldOk(After(w, ReopenReply))
  {
    var e := w.open[w.fuse.fh].target.entry;
    IssueForKeeps(w, e);
    var w1, p := IssueFor(w, e), Reopened(w.fuse.fh, w.fuse.cur, NewTarget(w, e));
    assert FuseOk(w, w.fuse);
    hide HandlesOk, BackgroundOk, TargetOk;
    assert PhaseOk(w1, Fuse, p);
    BecomesKeeps(w1, Fuse, p);
  }

  lemma ReconnectStepKeeps(w: World, epoch: nat)
    requires WorldOk(w) && Allowed(w, Reconnect(epoch))
    ensures WorldOk(After(w, Reconnect(epoch)))
  {
    SessionsAreOk(w);
    ReconnectKeeps(w.sessions, epoch);
    hide HandlesOk, PhaseOk, SessionsOk, TargetOk;
    SessionsKeep(w, After(w, Reconnect(epoch)));
  }

  lemma RestampHandles(w: World, fh: Fh, f: OpenFile)
    requires HandlesOk(w) && fh in w.open && TargetOk(w.sessions, f.target)
    requires f.target.entry == w.open[fh].target.entry && f.openedGen <= f.target.issuer
    ensures HandlesOk(w.(open := w.open[fh := f]))
  {
    hide TargetOk, SessionsOk;
    var w' := w.(open := w.open[fh := f]);
    forall h | h in w'.open
      ensures OpenOk(w', h)
    {
      assert OpenOk(w, h) && OpenOk(w, fh);
    }
  }

  lemma RestampKeeps(w: World, fh: Fh, f: OpenFile)
    requires WorldOk(w) && fh in w.open && TargetOk(w.sessions, f.target)
    requires f.target.entry == w.open[fh].target.entry && f.openedGen <= f.target.issuer
    ensures WorldOk(w.(open := w.open[fh := f]))
  {
    RestampHandles(w, fh, f);
    hide HandlesOk, PhaseOk, TargetOk;
    SessionsPhase(w, w.(open := w.open[fh := f]), Fuse, w.fuse);
    SessionsPhase(w, w.(open := w.open[fh := f]), Background, w.bg);
  }

  lemma StampedPhase(w: World, p: Phase)
    requires p.Reopened? && FuseOk(w, p)
    ensures FuseOk(w, if p.target.entry.append then Restamped(p.fh, p.target) else Ready(p.fh, p.target))
    ensures p.fh in w.open && TargetOk(w.sessions, p.target) && p.target.entry == w.open[p.fh].target.entry
    ensures p.cur <= p.target.issuer
  {
    hide TargetOk;
  }

  lemma StampKeeps(w: World)
    requires WorldOk(w) && Allowed(w, Stamp)
    ensures WorldOk(After(w, Stamp))
  {
    var p, f := w.fuse, OpenFile(w.fuse.target, w.fuse.cur);
    var p' := if p.target.entry.append then Restamped(p.fh, p.target) else Ready(p.fh, p.target);
    assert After(w, Stamp) == w.(fuse := p').(open := w.open[p.fh := f]);
    hide HandlesOk, FuseOk, BackgroundOk, TargetOk, After;
    StampedPhase(w, p);
    BecomesKeeps(w, Fuse, p');
    RestampKeeps(w.(fuse := p'), p.fh, f);
  }

  lemma ReleaseHandles(w: World, fh: Fh)
    requires HandlesOk(w)
    ensures HandlesOk(w.(open := w.open - {fh}, errors := w.errors - {fh}, bufs := w.bufs - {fh}))
  {
    hide TargetOk, SessionsOk;
    var w' := w.(open := w.open - {fh}, errors := w.errors - {fh}, bufs := w.bufs - {fh});
    forall h | h in w'.open
      ensures OpenOk(w', h)
    {
      assert OpenOk(w, h);
    }
  }

  lemma ReleaseBackground(w: World, fh: Fh)
    requires BackgroundOk(w, w.bg)
    ensures BackgroundOk(w.(open := w.open - {fh}, errors := w.errors - {fh}, bufs := w.bufs - {fh}), w.bg)
  {
    hide TargetOk;
  }

  lemma ReleaseKeeps(w: World, fh: Fh, heard: bool)
    requires WorldOk(w) && Allowed(w, Release(fh, heard))
    ensures WorldOk(ReleaseStep(w, fh, heard))
  {
    var w1 := w.(open := w.open - {fh}, errors := w.errors - {fh}, bufs := w.bufs - {fh});
    ReleaseHandles(w, fh);
    ReleaseBackground(w, fh);
    assert FuseOk(w1, w1.fuse);
    SessionsAreOk(w);
    ForgetKeeps(w.sessions, w.open[fh].target.handle);
    hide HandlesOk, FuseOk, BackgroundOk, TargetOk, SessionsOk;
    if heard {
      SessionsKeep(w1, ReleaseStep(w, fh, heard));
    } else {
      assert ReleaseStep(w, fh, heard) == w1;
    }
  }

  // ----- the other steps -----

  lemma OpenIsOk(w: World, fh: Fh)
    requires WorldOk(w) && fh in w.open
    ensures fh < w.nextFh && fh in w.ledgers && TargetOk(w.sessions, w.open[fh].target)
  {
    hide SessionsOk, TargetOk, PhaseOk;
    assert OpenOk(w, fh);
  }

  lemma ReadyBegins(w: World, who: Who, p: Phase, fl: Flight)
    requires p.Ready? && p.fh in w.ledgers && PhaseOk(w, who, p)
    ensures PhaseOk(w, who, Flushing(p.fh, p.target, fl, None))
  {
    hide TargetOk;
  }

  lemma FlushAdvances(w: World, who: Who, p: Phase, fl: Flight)
    requires p.Flushing? && PhaseOk(w, who, p)
    ensures PhaseOk(w, who, Flushing(p.fh, p.target, fl, None))
  {
    hide TargetOk;
  }

  lemma OwnPhase(w: World, who: Who)
    requires WorldOk(w)
    ensures PhaseOk(w, who, w.Phase(who))
  {
    hide HandlesOk, FuseOk, BackgroundOk;
  }

  lemma BeginHistoryKeeps(w: World, fh: Fh, l: Ledger)
    requires WorldOk(w) && fh in w.bufs
    ensures WorldOk(w.(bufs := w.bufs[fh := w.bufs[fh].(sending := true)], ledgers := w.ledgers[fh := l]))
  {
    hide TargetOk, SessionsOk, OpenOk, Distinct, PhaseOk;
    HistoryKeeps(w, w.(bufs := w.bufs[fh := w.bufs[fh].(sending := true)], ledgers := w.ledgers[fh := l]));
  }

  lemma BeginKeeps(w: World, who: Who)
    requires WorldOk(w) && Allowed(w, BeginFlush(who))
    ensures WorldOk(BeginStep(w, who))
  {
    var p, l := w.Phase(who), w.ledgers[w.Phase(who).fh];
    var l' := LedgerBegin(l, w.Queue(p.fh));
    var w1 := w.(bufs := w.bufs[p.fh := w.bufs[p.fh].(sending := true)], ledgers := w.ledgers[p.fh := l']);
    hide WorldOk, PhaseOk, LedgerBegin, FlightOf;
    BeginHistoryKeeps(w, p.fh, l');
    OwnPhase(w1, who);
    ReadyBegins(w1, who, p, FlightOf(l, w.Queue(p.fh)));
    BecomesKeeps(w1, who, Flushing(p.fh, p.target, FlightOf(l, w.Queue(p.fh)), None));
  }

  lemma StartKeeps(w: World, who: Who, via: nat)
    requires WorldOk(w) && Allowed(w, StartRpc(who, via))
    ensures WorldOk(StartStep(w, who, via))
  {
    var p := w.Phase(who);
    SessionsAreOk(w);
    assert PhaseOk(w, who, p);
    hide HandlesOk, SessionsOk, TargetOk;
    OnlyIssuerKnows(w, p.target, via);
    BecomesKeeps(w, who, Flushing(p.fh, p.target, p.flight, Some(w.sessions[via].table[p.target.handle])));
  }

  lemma IntrudedArePast(w: World, fh: Fh, rpc: Option<Entry>, r: Run)
    requires WorldOk(w)
    ensures forall h :: h in ServerWrite(w, fh, rpc, r).intruded ==> h < w.nextFh
  {
    hide TargetOk, SessionsOk, Distinct, PhaseOk, Store;
    forall h | h in w.open
      ensures h < w.nextFh
    {
      assert OpenOk(w, h);
    }
  }

  lemma LandingKeeps(w: World, who: Who, r: Run)
    requires WorldOk(w) && w.Phase(who).Flushing? && w.Phase(who).fh in w.ledgers
    ensures WorldOk(LandStep(w, who, r))
  {
    IntrudedArePast(w, w.Phase(who).fh, w.Phase(who).rpc, r);
    hide TargetOk, SessionsOk, OpenOk, Distinct, PhaseOk, LedgerLand, Store, Others;
    HistoryKeeps(w, LandStep(w, who, r));
  }

  lemma LandingFrame(w: World, who: Who, r: Run)
    requires w.Phase(who).Flushing? && w.Phase(who).fh in w.ledgers
    ensures var w' := LandStep(w, who, r);
            && w'.Phase(who) == w.Phase(who) && w'.open == w.open && w'.nextFh == w.nextFh
            && w'.errors == w.errors && w'.bufs == w.bufs && w.ledgers.Keys == w'.ledgers.Keys
  {
    hide LedgerLand, Store, Others;
  }

  lemma AdvanceKeeps(w: World, who: Who, fl: Flight)
    requires WorldOk(w) && w.Phase(who).Flushing?
    ensures WorldOk(w.Becomes(who, Flushing(w.Phase(who).fh, w.Phase(who).target, fl, None)))
  {
    hide WorldOk, PhaseOk;
    OwnPhase(w, who);
    FlushAdvances(w, who, w.Phase(who), fl);
    BecomesKeeps(w, who, Flushing(w.Phase(who).fh, w.Phase(who).target, fl, None));
  }

  lemma DeliverKeeps(w: World, who: Who)
    requires WorldOk(w) && Allowed(w, DeliverRun(who))
    ensures WorldOk(DeliverStep(w, who))
  {
    var p, r := w.Phase(who), NextRun(w.Phase(who).flight);
    var fl := p.flight.(sent := p.flight.sent + 1);
    assert DeliverStep(w, who) == LandStep(w, who, r).Becomes(who, Flushing(p.fh, p.target, fl, None));
    hide *;
    LandingFrame(w, who, r);
    LandingKeeps(w, who, r);
    AdvanceKeeps(LandStep(w, who, r), who, fl);
  }

  lemma DropKeeps(w: World, fh: Fh)
    requires WorldOk(w) && fh in w.ledgers
    ensures WorldOk(DropStep(w, fh))
  {
    hide TargetOk, SessionsOk, OpenOk, Distinct, PhaseOk, LedgerDrop;
    HistoryKeeps(w, DropStep(w, fh));
  }

  lemma ErrorKeeps(w: World, fh: Fh)
    requires WorldOk(w) && fh < w.nextFh
    ensures WorldOk(w.(errors := w.errors + {fh}))
  {
    hide TargetOk, SessionsOk, OpenOk, Distinct, PhaseOk;
    HistoryKeeps(w, w.(errors := w.errors + {fh}));
  }

  lemma RequeueKeeps(w: World, fh: Fh, e: Option<HandleBuf>)
    requires WorldOk(w) && (e.Some? ==> fh in w.open)
    ensures WorldOk(w.(bufs := Put(w.bufs, fh, e)))
  {
    hide TargetOk, SessionsOk, OpenOk, Distinct, PhaseOk;
    HistoryKeeps(w, w.(bufs := Put(w.bufs, fh, e)));
  }

  lemma QueuedAreOpen(w: World, fh: Fh)
    requires WorldOk(w) && fh in w.bufs
    ensures fh in w.open
  {
    hide TargetOk, SessionsOk, OpenOk, Distinct, PhaseOk;
  }

  lemma AfterFailureKeeps(w: World, who: Who, fh: Fh)
    requires WorldOk(w) && fh in w.ledgers && fh < w.nextFh
    ensures WorldOk(AfterFailure(w, who, fh))
  {
    hide WorldOk, LedgerDrop, LastWithData, LostBy, DropStep;
    if !(fh in w.open && w.open[fh].target.entry.append) {
      var e := FailedEntry(Buffers.Entry(w.bufs, fh));
      if e.Some? {
        QueuedAreOpen(w, fh);
      }
      RequeueKeeps(w, fh, e);
      BecomesKeeps(w.(bufs := Put(w.bufs, fh, e)), who, Idle);
    } else {
      DropKeeps(w, fh);
      var d := DropStep(w, fh);
      assert d.errors == w.errors && d.nextFh == w.nextFh by {
        DropFrame(w, fh);
      }
      if who.Fuse? {
        ErrorKeeps(d, fh);
        BecomesKeeps(d.(errors := w.errors + {fh}), Fuse, Idle);
      } else {
        BecomesKeeps(d, Background, ToMark(fh, LostBy(w.ledgers[fh], w.Queue(fh))));
      }
    }
  }

  lemma DropFrame(w: World, fh: Fh)
    requires fh in w.ledgers
    ensures var d := DropStep(w, fh);
            d.errors == w.errors && d.nextFh == w.nextFh && d.open == w.open && d.fuse == w.fuse && d.bg == w.bg
  {
  }

  lemma FailKeeps(w: World, who: Who, k: nat)
    requires WorldOk(w) && Allowed(w, FailRun(who, k))
    ensures WorldOk(FailStep(w, who, k))
  {
    var p := w.Phase(who);
    assert PhaseOk(w, who, p);
    if p.fh in w.open {
      OpenIsOk(w, p.fh);
    }
    LandingKeeps(w, who, Cut(NextRun(p.flight), k));
    hide WorldOk, TargetOk, LedgerLand, Store, Others, AfterFailure;
    AfterFailureKeeps(LandStep(w, who, Cut(NextRun(p.flight), k)), who, p.fh);
  }

  lemma AckKeeps(w: World, who: Who)
    requires WorldOk(w) && Allowed(w, AckFlush(who))
    ensures WorldOk(AckStep(w, who))
  {
    var fh, fl := w.Phase(who).fh, w.Phase(who).flight;
    var removed := if fl.count < |w.Queue(fh)| then fl.count else |w.Queue(fh)|;
    var w1 := w.(bufs := Put(w.bufs, fh, AckedEntry(Buffers.Entry(w.bufs, fh), fl.count)),
    ledgers := w.ledgers[fh := LedgerAck(w.ledgers[fh], fl, removed)]);
    hide TargetOk, SessionsOk, OpenOk, Distinct, PhaseOk, LedgerAck;
    HistoryKeeps(w, w1);
    assert PhaseOk(w1, who, Idle) by {
      IdleIsOk(w1, who);
    }
    BecomesKeeps(w1, who, Idle);
  }

  lemma IdleIsOk(w: World, who: Who)
    ensures PhaseOk(w, who, Idle)
  {
  }

  lemma WriteKeeps(w: World, fh: Fh, c: Chunk)
    requires WorldOk(w) && Allowed(w, Write(fh, c))
    ensures WorldOk(WriteStep(w, fh, c))
  {
    OpenIsOk(w, fh);
    hide TargetOk, SessionsOk, OpenOk, Distinct, PhaseOk, TableBytes;
    HistoryKeeps(w, WriteStep(w, fh, c));
  }

  lemma ResolveKeeps(w: World, who: Who, fh: Fh)
    requires WorldOk(w) && Allowed(w, Resolve(who, fh))
    ensures WorldOk(After(w, Resolve(who, fh)))
  {
    OpenIsOk(w, fh);
    var p := if w.open[fh].openedGen == w.Gen() then Ready(fh, w.open[fh].target) else Resolving(fh, |w.sessions| - 1);
    hide HandlesOk, TargetOk;
    assert PhaseOk(w, who, p);
    BecomesKeeps(w, who, p);
  }

  lemma AnsweringKeeps(w: World, fh: Fh, err: Option<int>)
    requires WorldOk(w) && fh in w.open
    ensures WorldOk(w.(fuse := Answering(fh, err)))
  {
    hide HandlesOk, TargetOk;
    BecomesKeeps(w, Fuse, Answering(fh, err));
  }

  lemma SetStickyKeeps(w: World)
    requires WorldOk(w) && Allowed(w, SetSticky)
    ensures WorldOk(After(w, SetSticky))
  {
    assert PhaseOk(w, Background, w.bg);
    hide HandlesOk, TargetOk;
    ErrorKeeps(w, w.bg.fh);
    BecomesKeeps(w.(errors := w.errors + {w.bg.fh}), Background, Idle);
  }

  lemma AnswerKeeps(w: World)
    requires WorldOk(w) && Allowed(w, Answer)
    ensures WorldOk(AnswerStep(w))
  {
    var w1 := AnswerStep(w).(fuse := w.fuse);
    hide TargetOk, SessionsOk, OpenOk, Distinct, PhaseOk;
    HistoryKeeps(w, w1);
    IdleIsOk(w1, Fuse);
    BecomesKeeps(w1, Fuse, Idle);
  }

  lemma LiveKeeps(w: World)
    requires WorldOk(w) && w.fuse.Restamped?
    ensures WorldOk(w.(fuse := Ready(w.fuse.fh, w.fuse.target)))
  {
    assert PhaseOk(w, Fuse, w.fuse);
    hide HandlesOk, TargetOk;
    BecomesKeeps(w, Fuse, Ready(w.fuse.fh, w.fuse.target));
  }

  lemma DropUnreplayableKeeps(w: World)
    requires WorldOk(w) && Allowed(w, DropUnreplayable)
    ensures WorldOk(DropUnreplayableStep(w))
  {
    LiveKeeps(w);
    assert w.fuse.fh in w.open by {
      assert PhaseOk(w, Fuse, w.fuse);
    }
    OpenIsOk(w, w.fuse.fh);
    hide TargetOk, SessionsOk, OpenOk, Distinct, PhaseOk, LedgerDrop, LastWithData, Queued;
    if w.fuse.fh in w.bufs {
      HistoryKeeps(w.(fuse := Ready(w.fuse.fh, w.fuse.target)), DropUnreplayableStep(w));
    }
  }

  lemma DropAgedKeeps(w: World, fh: Fh)
    requires WorldOk(w) && Allowed(w, DropAged(fh))
    ensures WorldOk(DropAgedStep(w, fh))
  {
    QueuedAreOpen(w, fh);
    OpenIsOk(w, fh);
    hide WorldOk, TargetOk, LostBy, DropStep;
    DropKeeps(w, fh);
    DropFrame(w, fh);
    var lost := LostBy(w.ledgers[fh], w.Queue(fh));
    BecomesKeeps(DropStep(w, fh), Background, if lost.Some? then ToMark(fh, lost) else Idle);
  }

  lemma {:induction false} WorldOkStep(w: World, s: Step)
    requires WorldOk(w) && Allowed(w, s)
    ensures WorldOk(After(w, s))
  {
    hide WorldOk, OpenStep, WriteStep, ReleaseStep, BeginStep, StartStep, DeliverStep, FailStep, AckStep,
      DropUnreplayableStep, DropAgedStep, AnswerStep;
    match s {
      case Open(path, append) => OpenKeeps(w, path, append);
      case Write(fh, c) => WriteKeeps(w, fh, c);
      case ReopenReply => ReopenReplyKeeps(w);
      case Reconnect(epoch) => ReconnectStepKeeps(w, epoch);
      case Stamp => StampKeeps(w);
      case Release(fh, heard) => ReleaseKeeps(w, fh, heard);
      case BeginFlush(who) => BeginKeeps(w, who);
      case StartRpc(who, via) => StartKeeps(w, who, via);
      case DeliverRun(who) => DeliverKeeps(w, who);
      case FailRun(who, k) => FailKeeps(w, who, k);
      case AckFlush(who) => AckKeeps(w, who);
      case DropUnreplayable => DropUnreplayableKeeps(w);
      case DropAged(fh) => DropAgedKeeps(w, fh);
      case Resolve(who, fh) => ResolveKeeps(w, who, fh);
      case Answer => AnswerKeeps(w);
      case ReopenError => BecomesKeeps(w, Fuse, Idle);
      case Abandon(who) => BecomesKeeps(w, who, Idle);
      case SetSticky => SetStickyKeeps(w);
      case SawEmpty(fh) => AnsweringKeeps(w, fh, None);
      case GaveUp(fh, errno) => AnsweringKeeps(w, fh, Some(errno));
    }
  }
}
