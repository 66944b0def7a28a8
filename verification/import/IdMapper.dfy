/** The id mapper: an in-memory cache over the persisted mapping rows of one job. */
module IdMapping {
  import opened Wrappers
  import opened ImportSource

  datatype MapKey = MapKey(entity: string, sourceId: nat)

  type Mappings = map<MapKey, nat>

  function Lookup(m: Mappings, entity: string, sourceId: Option<nat>): Option<nat> {
    if sourceId.None? || MapKey(entity, sourceId.value) !in m then None
    else Some(m[MapKey(entity, sourceId.value)])
  }

  class IdMapper {
    /** Lives as long as the process. */
    var cache: Mappings
    /** The mapping table: survives crashes, first value wins. */
    var rows: Mappings

    constructor ()
      ensures cache == map[] && rows == map[]
    {
      cache, rows := map[], map[];
    }

    method LoadFromDb()
      modifies this`cache
      ensures cache == rows
    {
      cache := map[];
      var rest := rows.Keys;
      while rest != {}
        invariant rest <= rows.Keys
        invariant cache.Keys == rows.Keys - rest && forall k <- cache :: cache[k] == rows[k]
        decreases |rest|
      {
        var k :| k in rest;
        cache, rest := cache[k := rows[k]], rest - {k};
      }
    }

    /** The cache takes the new value; the table keeps a value it already has. */
    method Record(entity: string, sourceId: nat, newId: nat)
      modifies this
      ensures var k := MapKey(entity, sourceId);
              cache == old(cache)[k := newId] &&
              rows == if k in old(rows) then old(rows) else old(rows)[k := newId]
    {
      var k := MapKey(entity, sourceId);
      cache := cache[k := newId];
      if k !in rows {
        rows := rows[k := newId];
      }
    }

    function Resolve(entity: string, sourceId: Option<nat>): (r: Option<nat>)
      reads this`cache
      ensures r == Lookup(cache, entity, sourceId)
    {
      Lookup(cache, entity, sourceId)
    }
  }
}
