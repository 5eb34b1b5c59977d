/**
 * `scripts/insert_schedule_example.py` (and its copy
 * `scripts/examples/insert_schedule_example.py`): store one schedule JSON file
 * in `raw_schedule` under the hash of its canonical text, returning the id of
 * the new or the already existing row.
 */
module ScheduleExample {
  import opened Wrappers
  import opened Json
  import opened Tables
  import Canonical

  /** A `raw_schedule` row as this script writes it: the payload column receives the canonical text. */
  datatype ScheduleRow = ScheduleRow(matchNumber: Json, payloadText: string, source: string, sourceHash: string)

  type ScheduleTable = Serial<string, ScheduleRow>

  /** `canonicalize(obj)`. */
  function Canonicalize(obj: Json): string
  {
    Canonical.CanonicalText(obj)
  }

  /**
   * `insert_example(file_path)` for a file named `fileName` holding `raw`.
   * `raw.get("id")` raises unless `raw` is a dict: None. Otherwise the upsert
   * `ON CONFLICT (source_hash) DO UPDATE SET ingested_at = ingested_at`
   * always returns a row, so the fallback SELECT is never reached.
   */
  function InsertExample(t: ScheduleTable, fileName: string, raw: Json, hash: string -> string): (r: Option<(nat, ScheduleTable)>)
    requires t.Valid()
    ensures r.Some? <==> raw.JObj?
    ensures r.Some? ==>
              var (id, t') := r.value;
              var h := hash(Canonicalize(raw));
              t'.Valid() && h in t'.index && t'.index[h] == id && id in t'.rows &&
              (h in t.index ==> id == t.index[h] && t'.rows == t.rows && t'.index == t.index) &&
              (h !in t.index ==> id !in t.rows && t'.rows == t.rows[id := ScheduleRow(Get(raw, "id"), Canonicalize(raw), fileName, h)] &&
                                 t'.RowCount() == t.RowCount() + 1)
  {
    if !raw.JObj? then None
    else
      var text := Canonicalize(raw);
      var h := hash(text);
      var row := ScheduleRow(Get(raw, "id"), text, fileName, h);
      Some(Upsert(t, h, row, Keep))
  }

  /**
   * The stored row's payload is the canonical text, its hash is the hash of
   * that text, and its match number is the payload's top-level `id` (None when
   * absent).
   */
  lemma StoredRowIsCanonical(t: ScheduleTable, fileName: string, raw: Json, hash: string -> string)
    requires t.Valid() && raw.JObj?
    requires hash(Canonicalize(raw)) !in t.index
    ensures var (id, t') := InsertExample(t, fileName, raw, hash).value;
            t'.rows[id].payloadText == Canonicalize(raw) &&
            t'.rows[id].sourceHash == hash(t'.rows[id].payloadText) &&
            t'.rows[id].matchNumber == (if HasKey(raw, "id") then Lookup(raw.fields, "id").value else JNull)
  {
  }

  /**
   * Inserting the same file twice returns the first call's id, adds no row
   * and leaves every stored row (including the first call's) unchanged.
   */
  lemma RepeatReturnsExistingId(t: ScheduleTable, f1: string, f2: string, raw: Json, raw2: Json, hash: string -> string)
    requires t.Valid() && raw.JObj? && raw2.JObj?
    requires Canonicalize(raw) == Canonicalize(raw2)
    ensures var (id1, t1) := InsertExample(t, f1, raw, hash).value;
            var (id2, t2) := InsertExample(t1, f2, raw2, hash).value;
            id2 == id1 && t2.rows == t1.rows && t2.RowCount() == t1.RowCount()
  {
  }
}
