/**
 * The durable store behind `SearchHistoryEntity` (an `IndexedEntity`): one
 * record per id and an index holding the set of known ids. Only the
 * behaviour the routes rely on is modelled: reading an entity's state,
 * creating (or overwriting) a record together with its index entry, and
 * listing every indexed record.
 */
module HistoryStore {

  import opened Types
  import Entities

  /** `order` lists every id of `ids` exactly once. */
  predicate Enumerates(order: seq<string>, ids: set<string>)
  {
    (forall i, j :: 0 <= i < j < |order| ==> order[i] != order[j]) &&
    (forall i :: 0 <= i < |order| ==> order[i] in ids) &&
    (forall id :: id in ids ==> id in order)
  }

  /** Every record is stored under its own id. */
  predicate KeyedById(records: map<string, SearchHistoryEntry>)
  {
    forall id :: id in records ==> records[id].id == id
  }

  /** What `getState` reports for `id`: the stored record, or the initial state. */
  function StoredOrInitial(records: map<string, SearchHistoryEntry>, id: string): SearchHistoryEntry
  {
    if id in records then records[id] else Entities.InitialState
  }

  class SearchHistoryStore {

    /** The stored records, keyed by their id. */
    var records: map<string, SearchHistoryEntry>

    /** The index: the ids of the stored records. */
    var index: set<string>

    /** Every record is indexed, no index entry dangles, and a record sits under its own id. */
    ghost predicate Valid()
      reads this
    {
      index == records.Keys && KeyedById(records)
    }

    constructor ()
      ensures Valid()
      ensures records == map[] && index == {}
    {
      records := map[];
      index := {};
    }

    /** `new SearchHistoryEntity(env, id).getState()`: the record, or the initial state when none is stored. */
    method GetState(id: string) returns (e: SearchHistoryEntry)
      ensures id in records ==> e == records[id]
      ensures id !in records ==> e == Entities.InitialState
      ensures e == StoredOrInitial(records, id)
    {
      if id in records {
        e := records[id];
      } else {
        e := Entities.InitialState;
      }
    }

    /** `SearchHistoryEntity.create(env, entry)`: writes the record under its id and indexes the id. */
    method Create(entry: SearchHistoryEntry)
      requires Valid()
      modifies this
      ensures Valid()
      ensures records == old(records)[entry.id := entry]
      ensures index == old(index) + {entry.id}
    {
      records := records[entry.id := entry];
      index := index + {entry.id};
    }

    /**
     * `SearchHistoryEntity.list(env)`: the record of every indexed id, in the
     * store's own order `order`. Exactly the stored records come back, each once.
     */
    method List(order: seq<string>) returns (items: seq<SearchHistoryEntry>)
      requires Valid() && Enumerates(order, index)
      ensures |items| == |order|
      ensures forall i :: 0 <= i < |order| ==> items[i] == records[order[i]]
      ensures forall id :: id in records ==> records[id] in items
      ensures forall e :: e in items ==> e.id in records && records[e.id] == e
      ensures forall i, j :: 0 <= i < j < |items| ==> items[i].id != items[j].id
    {
      var stored := records;
      items := seq(|order|, i requires 0 <= i < |order| => stored[order[i]]);
      forall id | id in records ensures records[id] in items {
        var i :| 0 <= i < |order| && order[i] == id;
        assert items[i] == records[id];
      }
    }
  }
}
