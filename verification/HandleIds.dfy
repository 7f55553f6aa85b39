/** Server handle ids: a session's epoch in the high 32 bits, a counter in the low ones. */
module HandleIds {
  import opened FileModel

  const EPOCHS: nat := 0x1_0000_0000

  /** What one connection's handle table has given out so far and what it still holds. */
  datatype Session<T> = Session(epoch: nat, issued: nat, table: map<nat, T>) {
    /** The id the counter hands out next; it starts at `epoch << 32 | 1`. */
    function NextId(): nat {
      epoch * EPOCHS + 1 + issued
    }

    predicate Issued(id: nat) {
      epoch * EPOCHS < id < NextId()
    }

    /** An epoch of 32 bits, at most 2^32 handles given out, nothing held that was not. */
    ghost predicate Ok() {
      epoch < EPOCHS && issued <= EPOCHS && forall id :: id in table ==> Issued(id)
    }

    function Issue(e: T): Session<T> {
      this.(issued := issued + 1, table := table[NextId() := e])
    }
  }

  lemma IssueOk<T>(s: Session<T>, e: T)
    requires s.Ok() && s.issued < EPOCHS
    ensures s.Issue(e).Ok() && !s.Issued(s.NextId()) && s.Issue(e).Issued(s.NextId())
  {
  }

  /** What happens to a session's table. */
  datatype TableOp<T> = Given(e: T) | Forgotten(id: nat)

  function Applied<T>(s: Session<T>, op: TableOp<T>): Session<T> {
    match op
    case Given(e) => s.Issue(e)
    case Forgotten(id) => s.(table := s.table - {id})
  }

  /** The ids handed out over a run of operations, in order. */
  function Ids<T>(s: Session<T>, ops: seq<TableOp<T>>): seq<nat>
    decreases ops
  {
    if ops == [] then []
    else (if ops[0].Given? then [s.NextId()] else []) + Ids(Applied(s, ops[0]), ops[1..])
  }

  /** Over every run of a session, whatever is removed in between, no id is handed out twice, and
      none was handed out before the run. */
  lemma {:induction false} IdsNeverRepeat<T>(s: Session<T>, ops: seq<TableOp<T>>)
    ensures forall i :: 0 <= i < |Ids(s, ops)| ==> s.NextId() <= Ids(s, ops)[i]
    ensures forall i, j :: 0 <= i < j < |Ids(s, ops)| ==> Ids(s, ops)[i] != Ids(s, ops)[j]
    decreases ops
  {
    if ops != [] {
      IdsNeverRepeat(Applied(s, ops[0]), ops[1..]);
    }
  }

  /** A handle issued by one session misses the table of every session with another epoch. */
  lemma {:induction false} OtherSessionMisses<T>(a: Session<T>, b: Session<T>, id: nat)
    requires a.Ok() && b.Ok() && a.epoch != b.epoch && a.Issued(id)
    ensures !b.Issued(id) && id !in b.table
  {
    if a.epoch < b.epoch {
      assert (a.epoch + 1) * EPOCHS <= b.epoch * EPOCHS;
    } else {
      assert (b.epoch + 1) * EPOCHS <= a.epoch * EPOCHS;
    }
  }

  /** The bound is exact: with neighbouring epochs both in use, ids stay apart if and only if the
      lower session has given out at most 2^32 of them. */
  lemma {:induction false} NeighboursApartIff<T>(a: Session<T>, b: Session<T>)
    requires b.epoch == a.epoch + 1 && b.issued > 0
    ensures (forall id: nat :: a.Issued(id) ==> !b.Issued(id)) <==> a.issued <= EPOCHS
  {
    assert b.epoch * EPOCHS == a.epoch * EPOCHS + EPOCHS;
    var id := b.epoch * EPOCHS + 1;
    assert b.Issued(id);
    assert a.issued > EPOCHS ==> a.Issued(id);
  }

  /** The per-connection table of open handles. */
  class HandleTable<T> {
    var counter: nat
    const maxHandles: nat
    var inner: map<nat, T>
    ghost const epoch: nat

    ghost predicate Valid()
      reads this
    {
      epoch * EPOCHS < counter && forall id :: id in inner ==> epoch * EPOCHS < id < counter
    }

    ghost function View(): Session<T>
      reads this
      requires Valid()
    {
      Session(epoch, counter - 1 - epoch * EPOCHS, inner)
    }

    constructor (epoch: nat, maxHandles: nat)
      ensures Valid() && View() == Session(epoch, 0, map[]) && this.maxHandles == maxHandles
    {
      this.counter, this.maxHandles, this.inner := epoch * EPOCHS + 1, maxHandles, map[];
      this.epoch := epoch;
    }

    /** Refused at capacity; otherwise a handle never given out before. */
    method TryInsert(e: T) returns (id: Option<nat>)
      requires Valid()
      modifies this`counter, this`inner
      ensures Valid()
      ensures id.None? <==> old(|inner|) >= maxHandles
      ensures id.None? ==> View() == old(View())
      ensures id.Some? ==> id.value == old(View()).NextId() && id.value !in old(inner)
                           && View() == old(View()).Issue(e)
      ensures id.Some? ==> inner == old(inner)[id.value := e]
    {
      if |inner| >= maxHandles {
        return None;
      }
      id := Some(counter);
      inner := inner[counter := e];
      counter := counter + 1;
    }

    method Remove(id: nat) returns (e: Option<T>)
      requires Valid()
      modifies this`inner
      ensures Valid()
      ensures e == (if id in old(inner) then Some(old(inner)[id]) else None)
      ensures View() == old(View()).(table := old(inner) - {id})
    {
      e := if id in inner then Some(inner[id]) else None;
      inner := inner - {id};
    }

    /** `get_file`, `get_write_ctx` and `get_path`: a hit is an id this session issued and has
        not removed; everything else is stale. */
    method Get(id: nat) returns (e: Option<T>)
      requires Valid()
      ensures e == (if id in inner then Some(inner[id]) else None)
      ensures e.Some? ==> View().Issued(id)
    {
      e := if id in inner then Some(inner[id]) else None;
    }
  }
}
