/** common/models.py: the soft-delete mixin that every BaseModel inherits
    (carts, cart items, orders, order items, products, reviews, tracks,
    playlists). `delete()` on an instance only flags the row; `hard_delete()`
    and queryset deletes really remove it. */
module SoftDelete {
  import opened Basics

  /** The two fields SoftDeleteModel adds to a row. */
  datatype Deletion = Deletion(isDeleted: bool, deletedAt: Option<Time>)

  /** The field defaults of a freshly created row. */
  const Live: Deletion := Deletion(false, None)

  /** SoftDeleteModel.delete: flag the row, stamp the clock reading `now`. */
  function MarkDeleted(d: Deletion, now: Time): (r: Deletion)
    ensures r.isDeleted && r.deletedAt == Some(now)
  {
    d.(isDeleted := true, deletedAt := Some(now))
  }

  /** SoftDeleteModel.restore */
  function MarkRestored(d: Deletion): (r: Deletion)
    ensures r == Live
  {
    d.(isDeleted := false, deletedAt := None)
  }

  /** Deleting and then restoring a row leaves the same flag values as a fresh row,
      whatever state it started in. */
  lemma DeleteThenRestore(d: Deletion, now: Time)
    ensures MarkRestored(MarkDeleted(d, now)) == Live
  {
  }

  /** A table of rows of some model that inherits SoftDeleteModel. It models
      BaseModel's three instance methods on their own: `delete`, `hard_delete`
      and `restore`. No other module uses it. The cart table and the track
      table keep their own `Deletion` fields and call `MarkDeleted` on them. */
  datatype Row<T> = Row(value: T, deletion: Deletion)

  class Table<T> {
    var rows: map<nat, Row<T>>

    constructor ()
      ensures rows == map[]
    {
      rows := map[];
    }

    /** `instance.delete()`: the row stays, only its flags change. */
    method Delete(id: nat, now: Time)
      requires id in rows
      modifies this
      ensures id in rows && rows.Keys == old(rows.Keys)
      ensures rows[id] == old(rows[id]).(deletion := MarkDeleted(old(rows[id]).deletion, now))
      ensures forall k :: k in rows && k != id ==> rows[k] == old(rows[k])
    {
      var row := rows[id];
      rows := rows[id := row.(deletion := MarkDeleted(row.deletion, now))];
    }

    /** `instance.hard_delete()`: the row is removed. */
    method HardDelete(id: nat)
      requires id in rows
      modifies this
      ensures rows == old(rows) - {id}
      ensures id !in rows
    {
      rows := rows - {id};
    }

    /** `instance.restore()` */
    method Restore(id: nat)
      requires id in rows
      modifies this
      ensures id in rows && rows.Keys == old(rows.Keys)
      ensures rows[id] == old(rows[id]).(deletion := Live)
      ensures forall k :: k in rows && k != id ==> rows[k] == old(rows[k])
    {
      var row := rows[id];
      rows := rows[id := row.(deletion := MarkRestored(row.deletion))];
    }
  }

  /** A soft delete followed by a restore gives back exactly the row it started from
      when that row was live (the value part is never touched). */
  method DeleteRestoreRoundTrip<T>(t: Table<T>, id: nat, now: Time)
    requires id in t.rows && t.rows[id].deletion == Live
    modifies t
    ensures t.rows == old(t.rows)
  {
    t.Delete(id, now);
    t.Restore(id);
    assert t.rows[id] == old(t.rows[id]);
  }
}
