/** The client's table of local connections and its bounded memory of recently closed IDs, both
    guarded by `connMu`.  One function per critical section; the class holds the fields and is
    proved against the functions, which ControlConnection.dfy takes as its atomic steps. */
module ForwardingTable {
  import opened Wrappers

  type Id = string
  type EntryRef = int

  const REMEMBERED_IDS := 1024

  datatype Table = Table(entries: map<Id, EntryRef>, closed: set<Id>, order: seq<Id>)

  const EMPTY_TABLE := Table(map[], {}, [])

  /** First in, first out once 1024 IDs are remembered; a remembered ID keeps its place. */
  function Remember(t: Table, id: Id): Table {
    if id in t.closed then t
    else
      var (closed, order) := if |t.order| >= REMEMBERED_IDS
          then (t.closed - {t.order[0]}, t.order[1..]) else (t.closed, t.order);
      t.(closed := closed + {id}, order := order + [id])
  }

  datatype Reservation = Refused | Full | Existing(ref: EntryRef) | Created

  /** `getOrCreateConnection` after its check of the control connection, for a new entry `ref`;
      `launched` says whether its writer could be started. */
  function Reserve(t: Table, id: Id, ref: EntryRef, limit: nat, launched: bool): (Table, Reservation) {
    if id in t.closed then (t, Refused)
    else if id in t.entries then (t, Existing(t.entries[id]))
    else if |t.entries| >= limit then (Remember(t, id), Full)
    else if launched then (t.(entries := t.entries[id := ref]), Created)
    else (t, Refused)
  }

  /** `finishLocal`: identity decides, so an old entry never removes a newer one. */
  function Finish(t: Table, id: Id, ref: EntryRef): Table {
    if id in t.entries && t.entries[id] == ref then Remember(t.(entries := t.entries - {id}), id) else t
  }

  function CloseById(t: Table, id: Id): (Table, Option<EntryRef>) {
    (Remember(t, id), if id in t.entries then Some(t.entries[id]) else None)
  }

  /** The memory is a queue of distinct IDs with its membership set. */
  ghost predicate MemoryOk(t: Table) {
    && (forall id :: id in t.closed <==> id in t.order)
    && (forall i, j | 0 <= i < j < |t.order| :: t.order[i] != t.order[j])
    && |t.order| <= REMEMBERED_IDS
  }

  ghost predicate TableOk(t: Table, limit: nat) { MemoryOk(t) && |t.entries| <= limit }

  lemma RememberKeepsMemory(t: Table, id: Id)
    requires MemoryOk(t)
    ensures MemoryOk(Remember(t, id))
  {
  }

  lemma RememberLeavesEntries(t: Table, id: Id)
    ensures Remember(t, id).entries == t.entries
  {
  }

  lemma CriticalSectionsKeepTable(t: Table, id: Id, ref: EntryRef, limit: nat, launched: bool)
    requires TableOk(t, limit)
    ensures TableOk(Reserve(t, id, ref, limit, launched).0, limit)
    ensures TableOk(Finish(t, id, ref), limit)
    ensures TableOk(CloseById(t, id).0, limit)
  {
    RememberKeepsMemory(t, id);
    if id in t.entries {
      var t' := t.(entries := t.entries - {id});
      assert t'.entries.Keys == t.entries.Keys - {id};
      RememberKeepsMemory(t', id);
    } else {
      assert t.entries[id := ref].Keys == t.entries.Keys + {id};
    }
  }

  /** What `getOrCreateConnection` answers, and when: a remembered ID is refused, an ID in the table
      gets the connection it has, a full table remembers the ID, and only a new ID with room and a
      writer is entered; in every other case the table stays as it is. */
  lemma ReserveIff(t: Table, id: Id, ref: EntryRef, limit: nat, launched: bool)
    requires TableOk(t, limit)
    ensures var (after, r) := Reserve(t, id, ref, limit, launched);
      && (r.Existing? <==> id !in t.closed && id in t.entries)
      && (r.Existing? ==> r.ref == t.entries[id])
      && (r.Full? <==> id !in t.closed && id !in t.entries && |t.entries| == limit)
      && (r.Created? <==> id !in t.closed && id !in t.entries && |t.entries| < limit && launched)
      && (r.Created? ==> id in after.entries && after.entries[id] == ref && after.entries - {id} == t.entries)
      && (r.Full? ==> after.entries == t.entries && id in after.closed && after.order[|after.order| - 1] == id)
      && (r.Existing? || r.Refused? ==> after == t)
      && (!r.Full? ==> after.closed == t.closed && after.order == t.order)
  {
    RememberKeepsMemory(t, id);
  }

  /** Finishing an entry by identity takes exactly its ID out of the table and remembers it, once;
      a stale entry changes nothing; closing by ID remembers the ID and leaves the table. */
  lemma FinishedIdsAreRemembered(t: Table, id: Id, ref: EntryRef)
    requires MemoryOk(t)
    ensures var done := Finish(t, id, ref);
      if id in t.entries && t.entries[id] == ref
      then done.entries == t.entries - {id} && id in done.closed && id in done.order
      else done == t
    ensures Finish(Finish(t, id, ref), id, ref) == Finish(t, id, ref)
    ensures var (closed, found) := CloseById(t, id);
      && closed.entries == t.entries && id in closed.closed
      && (found.Some? <==> id in t.entries) && (found.Some? ==> found.value == t.entries[id])
  {
    RememberKeepsMemory(t.(entries := t.entries - {id}), id);
  }

  function RememberAll(t: Table, ids: seq<Id>): Table
    decreases |ids|
  {
    if ids == [] then t else RememberAll(Remember(t, ids[0]), ids[1..])
  }

  /** An ID survives as long as fewer than 1024 have been remembered after it, whatever they are:
      `t.order[i]` has `|t.order| - 1 - i` successors already. */
  lemma {:induction false} RecentIdsAreRemembered(t: Table, i: nat, ids: seq<Id>)
    requires MemoryOk(t) && i < |t.order| && (|t.order| - 1 - i) + |ids| < REMEMBERED_IDS
    ensures t.order[i] in RememberAll(t, ids).closed
    decreases |ids|
  {
    if ids == [] {
    } else {
      var t' := Remember(t, ids[0]);
      RememberKeepsMemory(t, ids[0]);
      var dropped := if ids[0] !in t.closed && |t.order| == REMEMBERED_IDS then 1 else 0;
      assert t'.order[i - dropped] == t.order[i];
      RecentIdsAreRemembered(t', i - dropped, ids[1..]);
    }
  }

  /** The last 1024 of a list. */
  function Latest(ids: seq<Id>): seq<Id> {
    if |ids| <= REMEMBERED_IDS then ids else ids[|ids| - REMEMBERED_IDS..]
  }

  /** IDs that are all different and not remembered yet. */
  ghost predicate NewIds(t: Table, ids: seq<Id>) {
    && (forall i | 0 <= i < |ids| :: ids[i] !in t.closed)
    && (forall i, j | 0 <= i < j < |ids| :: ids[i] != ids[j])
  }

  lemma NewIdsRemain(t: Table, ids: seq<Id>)
    requires MemoryOk(t) && NewIds(t, ids) && ids != []
    ensures NewIds(Remember(t, ids[0]), ids[1..])
  {
  }

  lemma NewIdIsLast(t: Table, id: Id)
    requires MemoryOk(t) && id !in t.closed
    ensures Remember(t, id).order == Latest(t.order + [id])
  {
  }

  lemma LatestOfLatest(a: seq<Id>, b: seq<Id>)
    ensures Latest(Latest(a) + b) == Latest(a + b)
  {
  }

  /** The memory is the last 1024 new IDs in the order they came: first in, first out. */
  lemma {:induction false} MemoryIsTheLatest(t: Table, ids: seq<Id>)
    requires MemoryOk(t) && NewIds(t, ids)
    ensures MemoryOk(RememberAll(t, ids)) && RememberAll(t, ids).order == Latest(t.order + ids)
    decreases |ids|
  {
    if ids == [] {
      assert t.order + ids == t.order;
    } else {
      hide Remember; hide MemoryOk; hide Latest;
      var t' := Remember(t, ids[0]);
      RememberKeepsMemory(t, ids[0]);
      NewIdsRemain(t, ids);
      NewIdIsLast(t, ids[0]);
      MemoryIsTheLatest(t', ids[1..]);
      LatestOfLatest(t.order + [ids[0]], ids[1..]);
      assert (t.order + [ids[0]]) + ids[1..] == t.order + ids;
    }
  }

  /** An ID is forgotten exactly when 1024 new ones have come after it. */
  lemma RememberedIff(t: Table, i: nat, ids: seq<Id>)
    requires MemoryOk(t) && NewIds(t, ids) && i < |t.order|
    ensures t.order[i] in RememberAll(t, ids).closed <==> (|t.order| - 1 - i) + |ids| < REMEMBERED_IDS
  {
    MemoryIsTheLatest(t, ids);
    var all := t.order + ids;
    assert all[i] == t.order[i];
    assert forall j | 0 <= j < |all| && j != i :: all[j] != all[i];
    if |all| > REMEMBERED_IDS && i < |all| - REMEMBERED_IDS {
      assert forall j | 0 <= j < REMEMBERED_IDS :: Latest(all)[j] == all[|all| - REMEMBERED_IDS + j];
    } else {
      assert Latest(all)[if |all| > REMEMBERED_IDS then i - (|all| - REMEMBERED_IDS) else i] == all[i];
    }
  }

  /** The class: the fields of `Client` guarded by `connMu`. */
  class LocalConnections {
    const limit: nat
    var localConnections: map<Id, EntryRef>
    var closedLocal: set<Id>
    var closedOrder: seq<Id>

    ghost function View(): Table
      reads this
    {
      Table(localConnections, closedLocal, closedOrder)
    }

    ghost predicate Valid()
      reads this
    {
      TableOk(View(), limit)
    }

    constructor (limit: nat)
      ensures Valid() && View() == EMPTY_TABLE && this.limit == limit
    {
      this.limit := limit;
      localConnections, closedLocal, closedOrder := map[], {}, [];
    }

    method RememberClosed(id: Id)
      requires MemoryOk(View())
      modifies this`closedLocal, this`closedOrder
      ensures MemoryOk(View()) && View() == Remember(old(View()), id)
    {
      RememberKeepsMemory(View(), id);
      if id in closedLocal { return; }
      if |closedOrder| >= REMEMBERED_IDS {
        closedLocal := closedLocal - {closedOrder[0]};
        closedOrder := closedOrder[1..];
      }
      closedLocal := closedLocal + {id};
      closedOrder := closedOrder + [id];
    }

    method GetOrCreate(id: Id, ref: EntryRef, launched: bool) returns (r: Reservation)
      requires Valid()
      modifies this
      ensures Valid()
      ensures (View(), r) == Reserve(old(View()), id, ref, limit, launched)
      ensures r.Existing? <==> id !in old(closedLocal) && id in old(localConnections)
      ensures r.Existing? ==> r.ref == old(localConnections)[id] && View() == old(View())
      ensures r.Created? <==>
                id !in old(closedLocal) && id !in old(localConnections) && |old(localConnections)| < limit && launched
      ensures localConnections == if r.Created? then old(localConnections)[id := ref] else old(localConnections)
    {
      hide MemoryOk; hide Remember;
      CriticalSectionsKeepTable(View(), id, ref, limit, launched);
      if id in closedLocal { return Refused; }
      if id in localConnections { return Existing(localConnections[id]); }
      if |localConnections| >= limit {
        RememberLeavesEntries(View(), id);
        RememberClosed(id);
        return Full;
      }
      ghost var before := localConnections;
      localConnections := localConnections[id := ref];
      if !launched {
        localConnections := localConnections - {id};
        assert localConnections == before;
        return Refused;
      }
      return Created;
    }

    method FinishLocal(id: Id, ref: EntryRef)
      requires Valid()
      modifies this
      ensures Valid()
      ensures View() == Finish(old(View()), id, ref)
    {
      CriticalSectionsKeepTable(View(), id, ref, limit, true);
      if id in localConnections && localConnections[id] == ref {
        localConnections := localConnections - {id};
        RememberClosed(id);
      }
    }

    method CloseConnection(id: Id) returns (found: Option<EntryRef>)
      requires Valid()
      modifies this
      ensures Valid()
      ensures (View(), found) == CloseById(old(View()), id)
    {
      CriticalSectionsKeepTable(View(), id, 0, limit, true);
      found := if id in localConnections then Some(localConnections[id]) else None;
      RememberClosed(id);
    }

    /** The sweep leaves table and memory empty. */
    method CloseAll() returns (swept: map<Id, EntryRef>)
      requires Valid()
      modifies this
      ensures Valid() && View() == EMPTY_TABLE && swept == old(localConnections)
    {
      swept := localConnections;
      localConnections, closedLocal, closedOrder := map[], {}, [];
    }
  }
}
