/**
 * PostgreSQL tables as values. `Serial<K, V>` is a table with a serial
 * surrogate key (`id SERIAL` / `*_key SERIAL`) and a unique natural key `K`,
 * the column list an `ON CONFLICT (…)` names. Every INSERT draws the next
 * serial value, also when the row then conflicts (PostgreSQL evaluates the
 * column defaults before it checks for conflicts).
 */
module Tables {
  import opened Wrappers

  datatype Serial<K, V> = Serial(index: map<K, nat>, rows: map<nat, V>, next: nat)
  {
    /** The index points at stored rows, no two keys share a row, and every id is below `next`. */
    predicate Valid()
    {
      (forall k :: k in index ==> index[k] in rows) &&
      (forall id :: id in rows ==> id < next) &&
      (forall k1, k2 :: k1 in index && k2 in index && index[k1] == index[k2] ==> k1 == k2)
    }

    function RowCount(): nat
    {
      |rows|
    }
  }

  function EmptySerial<K, V>(): (t: Serial<K, V>)
    ensures t.Valid() && t.RowCount() == 0
  {
    Serial(map[], map[], 1)
  }

  /**
   * `INSERT … ON CONFLICT (k) DO NOTHING RETURNING id`: the new id when `k` was
   * absent, no row (None) and an unchanged table otherwise.
   */
  function InsertDoNothing<K, V>(t: Serial<K, V>, k: K, v: V): (r: (Option<nat>, Serial<K, V>))
    requires t.Valid()
    ensures r.1.Valid()
    ensures r.0.Some? <==> k !in t.index
    ensures r.0.Some? ==> r.1.index == t.index[k := r.0.value] && r.1.rows == t.rows[r.0.value := v] &&
                          r.0.value !in t.rows && r.1.RowCount() == t.RowCount() + 1
    ensures r.0.None? ==> r.1.index == t.index && r.1.rows == t.rows
  {
    var id := t.next;
    if k in t.index then (None, t.(next := id + 1))
    else (Some(id), Serial(t.index[k := id], t.rows[id := v], id + 1))
  }

  /**
   * `INSERT … ON CONFLICT (k) DO UPDATE SET … RETURNING id`: the row of key `k`
   * ends up as `v` when new, or as `merge(old row, v)` when it existed; its id
   * is returned either way.
   */
  function Upsert<K, V>(t: Serial<K, V>, k: K, v: V, merge: (V, V) -> V): (r: (nat, Serial<K, V>))
    requires t.Valid()
    ensures r.1.Valid()
    ensures k in r.1.index && r.1.index[k] == r.0
    ensures k in t.index ==> r.0 == t.index[k] && r.1.index == t.index &&
                             r.1.rows == t.rows[r.0 := merge(t.rows[r.0], v)] && r.1.RowCount() == t.RowCount()
    ensures k !in t.index ==> r.0 !in t.rows && r.1.index == t.index[k := r.0] &&
                              r.1.rows == t.rows[r.0 := v] && r.1.RowCount() == t.RowCount() + 1
  {
    var id := t.next;
    if k in t.index then
      var old_id := t.index[k];
      (old_id, Serial(t.index, t.rows[old_id := merge(t.rows[old_id], v)], id + 1))
    else (id, Serial(t.index[k := id], t.rows[id := v], id + 1))
  }

  /** `t2` is `t` after an upsert of `v` under `k` that returned `id`. */
  predicate Upserted<K, V(==)>(t: Serial<K, V>, t2: Serial<K, V>, k: K, id: nat, v: V, merge: (V, V) -> V)
  {
    t2.index == t.index[k := id] &&
    if k in t.index then id == t.index[k] && id in t.rows && t2.rows == t.rows[id := merge(t.rows[id], v)]
    else id !in t.rows && t2.rows == t.rows[id := v]
  }

  lemma UpsertUpserted<K, V>(t: Serial<K, V>, k: K, v: V, merge: (V, V) -> V)
    requires t.Valid()
    ensures Upserted(t, Upsert(t, k, v, merge).1, k, Upsert(t, k, v, merge).0, v, merge)
  {
  }

  /**
   * An upsert whose conflict column may be NULL (None): NULL equals nothing,
   * so such a row never conflicts and is added under no key.
   */
  function UpsertNullable<K, V>(t: Serial<K, V>, k: Option<K>, v: V, merge: (V, V) -> V): (r: (nat, Serial<K, V>))
    requires t.Valid()
    ensures r.1.Valid() && r.0 in r.1.rows
    ensures k.Some? ==> r == Upsert(t, k.value, v, merge)
    ensures k.None? ==> r.0 !in t.rows && r.1.index == t.index && r.1.rows == t.rows[r.0 := v] &&
                        r.1.RowCount() == t.RowCount() + 1
  {
    match k
    case None => (t.next, Serial(t.index, t.rows[t.next := v], t.next + 1))
    case Some(key) => Upsert(t, key, v, merge)
  }

  /** The conflict action of a plain overwrite (`SET col = EXCLUDED.col` for every column). */
  function Overwrite<V>(stored: V, incoming: V): V
  {
    incoming
  }

  /** The conflict action `SET col = col`: the stored row is kept. */
  function Keep<V>(stored: V, incoming: V): V
  {
    stored
  }

  /** Repeating an insert-if-absent with the same key adds nothing and changes no row. */
  lemma InsertDoNothingRepeat<K, V>(t: Serial<K, V>, k: K, v: V, w: V)
    requires t.Valid()
    ensures var (_, t1) := InsertDoNothing(t, k, v);
            var (r2, t2) := InsertDoNothing(t1, k, w);
            r2 == None && t2.rows == t1.rows && t2.index == t1.index
  {
  }

  /** An upsert leaves every other row as it was. */
  lemma UpsertFrame<K, V>(t: Serial<K, V>, k: K, v: V, merge: (V, V) -> V, id: nat)
    requires t.Valid() && id in t.rows
    requires k !in t.index || t.index[k] != id
    ensures var (_, t1) := Upsert(t, k, v, merge); id in t1.rows && t1.rows[id] == t.rows[id]
  {
  }

  /** Upserting the same key twice keeps one row and returns the same id. */
  lemma UpsertTwiceSameRow<K, V>(t: Serial<K, V>, k: K, v: V, w: V, merge: (V, V) -> V)
    requires t.Valid()
    ensures var (id1, t1) := Upsert(t, k, v, merge);
            var (id2, t2) := Upsert(t1, k, w, merge);
            id1 == id2 && t2.RowCount() == t1.RowCount()
  {
  }

  /** A table keyed directly by its conflict columns (no surrogate key). */
  datatype Keyed<K, V> = Keyed(rows: map<K, V>)

  /** `INSERT … ON CONFLICT (k) DO UPDATE`: afterwards exactly the row of `k` changed. */
  function KeyedUpsert<K, V>(t: Keyed<K, V>, k: K, v: V, merge: (V, V) -> V): (r: Keyed<K, V>)
    ensures k in r.rows && r.rows.Keys == t.rows.Keys + {k}
    ensures r.rows[k] == (if k in t.rows then merge(t.rows[k], v) else v)
    ensures forall k2 :: k2 in t.rows && k2 != k ==> r.rows[k2] == t.rows[k2]
  {
    Keyed(t.rows[k := if k in t.rows then merge(t.rows[k], v) else v])
  }

  /** Every row of `t` is in `t2`, unchanged. */
  ghost predicate Extends<K, V>(t: Keyed<K, V>, t2: Keyed<K, V>)
  {
    forall k :: k in t.rows ==> k in t2.rows && t2.rows[k] == t.rows[k]
  }

  lemma ExtendsTransitive<K, V>(a: Keyed<K, V>, b: Keyed<K, V>, c: Keyed<K, V>)
    requires Extends(a, b) && Extends(b, c)
    ensures Extends(a, c)
  {
  }

  /** `INSERT … ON CONFLICT DO NOTHING` on a keyed table: true iff a row was added. */
  function KeyedInsertIfAbsent<K, V>(t: Keyed<K, V>, k: K, v: V): (r: (bool, Keyed<K, V>))
    ensures r.0 <==> k !in t.rows
    ensures r.0 ==> r.1.rows == t.rows[k := v]
    ensures !r.0 ==> r.1 == t
    ensures Extends(t, r.1)
  {
    if k in t.rows then (false, t) else (true, Keyed(t.rows[k := v]))
  }
}
