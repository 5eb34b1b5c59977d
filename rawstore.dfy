/**
 * The bronze raw tables (`raw_scoreboard`, `raw_schedule`,
 * `raw_competition`, …): one row per distinct payload, keyed on
 * `source_hash`, written with `INSERT … ON CONFLICT (source_hash) DO NOTHING
 * RETURNING id`.
 */
module RawStore {
  import opened Json
  import opened Tables
  import Canonical

  /** A row of a raw table; its `id` is the serial key of the table. */
  datatype RawRow = RawRow(matchNumber: Json, payload: Json, source: string, sourceHash: string)

  /** A raw table, keyed on `source_hash`. */
  type RawTable = Serial<string, RawRow>

  /** The hex digest of a text (`hashlib.sha256(s.encode("utf-8")).hexdigest()`), left abstract. */
  type Hasher = string -> string

  /**
   * An open transaction on a raw table: the table as the connection sees
   * it, and whether a failed statement has aborted the transaction. Until a
   * rollback, PostgreSQL refuses every later statement of an aborted
   * transaction, and its commit is a rollback.
   */
  datatype Session = Session(table: RawTable, aborted: bool)

  /** The hash of the canonical text `json.dumps(p, sort_keys=True, separators=(",", ":"), ensure_ascii=False)`. */
  function CanonicalHash(hash: Hasher, payload: Json): string
  {
    hash(Canonical.CanonicalText(payload))
  }

  /** The stored rows of `t` are still there, unchanged, in `t'`. */
  predicate Grows(t: RawTable, t': RawTable)
  {
    (forall id {:trigger t.rows[id]} :: id in t.rows ==> id in t'.rows && t'.rows[id] == t.rows[id]) &&
    t.RowCount() <= t'.RowCount()
  }

  lemma GrowsTransitive(a: RawTable, b: RawTable, c: RawTable)
    requires Grows(a, b) && Grows(b, c)
    ensures Grows(a, c)
  {
  }

  /**
   * The insert-if-absent of one row, given whether the statement raises: True
   * exactly when a row with a new hash was added.
   */
  function StoreRaw(t: RawTable, row: RawRow, raises: bool): (r: (bool, RawTable))
    requires t.Valid()
    ensures r.1.Valid()
    ensures r.0 <==> !raises && row.sourceHash !in t.index
    ensures r.0 ==> r.1.index.Keys == t.index.Keys + {row.sourceHash} &&
                    r.1.rows[r.1.index[row.sourceHash]] == row &&
                    r.1.index[row.sourceHash] !in t.rows &&
                    r.1.rows == t.rows[r.1.index[row.sourceHash] := row] &&
                    r.1.RowCount() == t.RowCount() + 1
    ensures !r.0 ==> r.1.rows == t.rows && r.1.index == t.index
    ensures raises ==> r.1 == t
  {
    if raises then (false, t)
    else
      var (id, t') := InsertDoNothing(t, row.sourceHash, row);
      (id.Some?, t')
  }

  /** Storing never drops or changes a stored row. */
  lemma StoreRawGrows(t: RawTable, row: RawRow, raises: bool)
    requires t.Valid()
    ensures Grows(t, StoreRaw(t, row, raises).1)
  {
  }

  /**
   * Storing a second row with the hash of a stored one reports False and
   * changes no row: the first row, with its match number and source, stays.
   */
  lemma StoreRawRepeat(t: RawTable, row: RawRow, again: RawRow, raises: bool)
    requires t.Valid() && again.sourceHash == row.sourceHash
    ensures var (_, t1) := StoreRaw(t, row, false);
            var (ok, t2) := StoreRaw(t1, again, raises);
            !ok && t2.rows == t1.rows && t2.index == t1.index
  {
  }

  /** Payloads that differ only in the order of their dicts' items, at any depth, get the same hash. */
  lemma CanonicalHashKeyOrder(hash: Hasher, p: Json, q: Json)
    requires Canonical.SameUpToKeyOrder(p, q)
    ensures CanonicalHash(hash, p) == CanonicalHash(hash, q)
  {
    Canonical.CanonicalKeyOrderInvariant(p, q, Canonical.Compact);
  }
}
