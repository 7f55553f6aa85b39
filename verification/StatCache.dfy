/** The metadata cache behind the FUSE callbacks: emptied when the connection has changed. */
module StatCache {
  import opened FileModel
  import opened MetaCache

  /** What the server answered to a getattr. */
  datatype Reply = Attributes(stat: Stat) | Missing | Broken

  datatype Outcome = Ok(stat: Stat) | NoEntry | OtherError

  function Served(a: Answer): Outcome {
    match a
    case Found(stat) => Ok(stat)
    case NotFound => NoEntry
  }

  function Told(r: Reply): Outcome {
    match r
    case Attributes(stat) => Ok(stat)
    case Missing => NoEntry
    case Broken => OtherError
  }

  /** The file type bits of `mode` say directory. */
  predicate IsDir(stat: Stat) {
    stat.mode / 4096 % 16 == 4
  }

  /** Every insert still standing was made at generation `gen` or later. */
  ghost predicate Since(parent: Parents, log: seq<Event>, gen: nat) {
    forall path :: CurrentSince(parent, log, gen, path)
  }

  ghost predicate CurrentSince(parent: Parents, log: seq<Event>, gen: nat, path: Path) {
    Current(parent, log, path).Some? ==> Current(parent, log, path).value.gen >= gen
  }

  lemma SincePush(parent: Parents, log: seq<Event>, e: Event, gen: nat)
    requires Since(parent, log, gen) && (e.Inserted? ==> e.gen >= gen)
    ensures Since(parent, log + [e], gen)
  {
    forall path
      ensures CurrentSince(parent, log + [e], gen, path)
    {
      assert CurrentSince(parent, log, gen, path);
      CurrentPush(parent, log, e, path);
    }
  }

  lemma SinceClear(parent: Parents, log: seq<Event>, gen: nat)
    ensures Since(parent, log + [Cleared], gen)
  {
    forall path
      ensures CurrentSince(parent, log + [Cleared], gen, path)
    {
      CurrentPush(parent, log, Cleared, path);
    }
  }

  /** What `get_stat` learns from the server, if it asks and may keep it. */
  ghost function Learned(c: Cache, path: Path, reply: Reply, flushed: bool, now: nat, gen: nat): seq<Event> {
    match reply
    case Attributes(stat) =>
      if flushed then [Inserted(path, Found(stat), now + if IsDir(stat) then c.dirTtl else c.posTtl, gen)] else []
    case Missing => [Inserted(path, NotFound, now + c.negTtl, gen)]
    case Broken => []
  }

  lemma LearnedIsCurrent(c: Cache, log: seq<Event>, path: Path, reply: Reply, flushed: bool, now: nat, gen: nat)
    ensures var learned := Learned(c, path, reply, flushed, now, gen);
            Current(c.parent, log + learned, path)
            == if learned == [] then Current(c.parent, log, path) else Some(learned[0])
  {
    var learned := Learned(c, path, reply, flushed, now, gen);
    if learned == [] {
      assert log + learned == log;
    } else {
      CurrentPush(c.parent, log, learned[0], path);
      assert learned == [learned[0]];
    }
  }

  class Stats {
    const cache: Cache
    var lastGen: nat

    ghost predicate Valid()
      reads this, cache
    {
      cache.Valid() && Since(cache.parent, cache.log, lastGen)
    }

    constructor (cache: Cache, gen: nat)
      requires cache.Valid() && cache.log == []
      ensures Valid() && this.cache == cache && lastGen == gen
    {
      this.cache, lastGen := cache, gen;
    }

    /** `check_reconnect` when the generation is `gen`. */
    method CheckReconnect(gen: nat)
      requires Valid()
      modifies this, cache`lru, cache`log
      ensures Valid() && lastGen == gen
      ensures cache.log == if gen == old(lastGen) then old(cache.log) else old(cache.log) + [Cleared]
    {
      if gen != lastGen {
        SinceClear(cache.parent, cache.log, gen);
        cache.Clear();
        lastGen := gen;
      }
    }

    method CacheStat(path: Path, stat: Stat, now: nat, ghost gen: nat)
      requires Valid() && cache.clock <= now && lastGen <= gen
      modifies cache`lru, cache`log, cache`clock
      ensures Valid() && cache.clock == now
      ensures var ttl := if IsDir(stat) then cache.dirTtl else cache.posTtl;
              cache.log == old(cache.log) + [Inserted(path, Found(stat), now + ttl, gen)]
    {
      SincePush(cache.parent, cache.log,
                Inserted(path, Found(stat), now + if IsDir(stat) then cache.dirTtl else cache.posTtl, gen), lastGen);
      cache.Insert(path, stat, IsDir(stat), now, gen);
    }

    method CacheNegative(path: Path, now: nat, ghost gen: nat)
      requires Valid() && cache.clock <= now && lastGen <= gen
      modifies cache`lru, cache`log, cache`clock
      ensures Valid() && cache.clock == now
      ensures cache.log == old(cache.log) + [Inserted(path, NotFound, now + cache.negTtl, gen)]
    {
      SincePush(cache.parent, cache.log, Inserted(path, NotFound, now + cache.negTtl, gen), lastGen);
      cache.InsertNegative(path, now, gen);
    }

    method InvalidateCache(path: Path)
      requires Valid()
      modifies cache`lru, cache`log
      ensures Valid() && cache.log == old(cache.log) + [Invalidated(path)]
    {
      SincePush(cache.parent, cache.log, Invalidated(path), lastGen);
      cache.Invalidate(path);
    }

    /** `get_stat`: the generation is `gen` on entry and `genLater` when the answer is cached, the
        time `now` at the lookup and `later` at the insert. An answer from the cache was inserted
        when the generation had reached the value seen on entry, still stands and has not expired;
        every other answer is the server's: attributes are kept unless the flush before it failed,
        absence always. */
    method GetStat(path: Path, gen: nat, now: nat, reply: Reply, flushed: bool, genLater: nat, later: nat)
      returns (r: Outcome, cached: bool)
      requires Valid() && lastGen <= gen <= genLater && cache.clock <= now <= later
      modifies this, cache`lru, cache`log, cache`clock
      ensures Valid() && lastGen == gen
      ensures cached ==>
                var c := Current(cache.parent, old(cache.log), path);
                && c.Some? && c.value.gen >= gen && now < c.value.expires
                && match c.value.answer { case Found(stat) => r == Ok(stat) case NotFound => r == NoEntry }
      ensures !cached ==>
                match reply {
                  case Attributes(stat) => r == Ok(stat)
                  case Missing => r == NoEntry
                  case Broken => r == OtherError
                }
      ensures cache.log == (if gen == old(lastGen) then old(cache.log) else old(cache.log) + [Cleared])
                           + [Looked(path, now, cached)]
                           + (if cached then [] else Learned(cache, path, reply, flushed, later, genLater))
      ensures !cached && reply == Missing ==>
                Current(cache.parent, cache.log, path) == Some(Inserted(path, NotFound, later + cache.negTtl, genLater))
      ensures !cached && reply.Attributes? && flushed ==>
                var ttl := if IsDir(reply.stat) then cache.dirTtl else cache.posTtl;
                Current(cache.parent, cache.log, path) == Some(Inserted(path, Found(reply.stat), later + ttl, genLater))
      ensures !cached && (reply == Broken || (reply.Attributes? && !flushed)) && gen == old(lastGen) ==>
                Current(cache.parent, cache.log, path) == Current(cache.parent, old(cache.log), path)
    {
      CheckReconnect(gen);
      label checked:
      if gen != old(lastGen) {
        CurrentPush(cache.parent, old(cache.log), Cleared, path);
      }
      assert CurrentSince(cache.parent, cache.log, gen, path);
      var hit := cache.Get(path, now);
      SincePush(cache.parent, old@checked(cache.log), Looked(path, now, hit.Some?), gen);
      if hit.Some? {
        return Served(hit.value), true;
      }
      CurrentPush(cache.parent, old@checked(cache.log), Looked(path, now, false), path);
      LearnedIsCurrent(cache, cache.log, path, reply, flushed, later, genLater);
      match reply {
        case Attributes(stat) =>
          if flushed {
            CacheStat(path, stat, later, genLater);
          }
        case Missing => CacheNegative(path, later, genLater);
        case Broken =>
      }
      return Told(reply), false;
    }
  }
}
