/**
 * The configuration table, keyed by row id, and the ORM's update-by-id.
 * The ORM returns the updated record when a row with that id exists and
 * nothing otherwise; its query execution is not modelled.
 */
module Store {
  import opened Optional
  import opened Config

  /** The table: each row under its own id. */
  type Table = map<string, QRCodeConfig>

  /** Each row is filed under its own id, so an id names at most one row. */
  predicate IdsMatchKeys(t: Table)
  {
    forall k :: k in t ==> t[k].id == k
  }

  /** The table after an update, and the record the ORM hands back. */
  datatype UpdateResult = UpdateResult(table: Table, record: Option<QRCodeConfig>)

  /**
   * Update-by-id: merges `m` into the row with id `id` and returns the merged
   * record; with no such row the table is unchanged and no record comes back.
   */
  function Update(t: Table, id: string, m: Changes): (r: UpdateResult)
    requires WellTyped(m)
    ensures r.record.Some? <==> id in t
    ensures r.table.Keys == t.Keys
    ensures forall k :: k in t && k != id ==> r.table[k] == t[k]
    ensures id in t ==> r.record == Some(r.table[id])
    ensures id in t ==> r.table[id].id == t[id].id
    ensures id in t ==> forall f :: FieldOf(r.table[id], f) == if f in m then m[f] else FieldOf(t[id], f)
    ensures id !in t ==> r.table == t
    ensures IdsMatchKeys(t) ==> IdsMatchKeys(r.table)
    ensures IdsMatchKeys(t) ==> (r.record.Some? <==> exists k :: k in t && t[k].id == id)
  {
    if id in t then
      var row := ApplyChanges(t[id], m);
      UpdateResult(t[id := row], Some(row))
    else
      UpdateResult(t, None)
  }

  /** Running the same update twice leaves the table as running it once. */
  lemma UpdateIdempotent(t: Table, id: string, m: Changes)
    requires WellTyped(m)
    ensures Update(Update(t, id, m).table, id, m).table == Update(t, id, m).table
    ensures Update(Update(t, id, m).table, id, m).record == Update(t, id, m).record
  {
    if id in t {
      ApplyIdempotent(t[id], m);
    }
  }
}
