/** The `past_fixes` table: one row per successful diagnosis, and its DAO. */
module PastFixes {
  import opened Wrappers
  import Tables

  /**
   * A stored diagnosis. `id` 0 asks the database to choose the id;
   * `date` defaults to the creation time, which the caller passes in.
   */
  datatype PastFixEntity = PastFixEntity(
    id: int := 0,
    title: string,
    difficulty: string,
    estimatedTime: string,
    toolsJson: string,
    stepsJson: string,
    category: string := "general",
    date: int,
    status: string := "Completed")

  type PastFixTable = Tables.Table<PastFixEntity>

  /** The JSON text codec that stores `tools` and `steps` in a row. */
  datatype ListCodec = ListCodec(encode: seq<string> -> string, decode: string -> Option<seq<string>>)

  /** Decoding what was encoded gives back the list. */
  ghost predicate RoundTrips(c: ListCodec) {
    forall xs :: c.decode(c.encode(xs)) == Some(xs)
  }

  /** The table's own invariant, and every row carries the id it is stored under. */
  ghost predicate Valid(t: PastFixTable) {
    Tables.Valid(t) && forall k | k in t.rows :: t.rows[k].id == k
  }

  function DateRank(e: PastFixEntity): real {
    e.date as real
  }

  function KeepAll(e: PastFixEntity): bool {
    true
  }

  /** `rows` is an answer to `SELECT * FROM past_fixes ORDER BY date DESC`. */
  ghost predicate IsNewestFirst(t: PastFixTable, rows: seq<PastFixEntity>) {
    && |rows| == |t.rows|
    && (forall i | 0 <= i < |rows| :: rows[i].id in t.rows && t.rows[rows[i].id] == rows[i])
    && (forall k | k in t.rows :: t.rows[k] in rows)
    && (forall i, j | 0 <= i < j < |rows| :: rows[i].id != rows[j].id)
    && (forall i, j | 0 <= i < j < |rows| :: rows[i].date >= rows[j].date)
  }

  /** `getAllFixes`: all rows exactly once, newest first. */
  method GetAllFixes(t: PastFixTable) returns (rows: seq<PastFixEntity>)
    requires Valid(t)
    ensures IsNewestFirst(t, rows)
  {
    var ids := Tables.Listing(t.rows, DateRank, KeepAll);
    Tables.ListingCount(t.rows, DateRank, KeepAll, ids);
    rows := seq(|ids|, i requires 0 <= i < |ids| => t.rows[ids[i]]);
    ListingRows(t, ids, rows);
  }

  /** The rows a date listing names are an answer to the query. */
  lemma ListingRows(t: PastFixTable, ids: seq<int>, rows: seq<PastFixEntity>)
    requires Valid(t) && Tables.IsListing(t.rows, DateRank, KeepAll, ids) && |ids| == |t.rows|
    requires |rows| == |ids| && forall i | 0 <= i < |ids| :: rows[i] == t.rows[ids[i]]
    ensures IsNewestFirst(t, rows)
  {
    forall k | k in t.rows ensures t.rows[k] in rows {
      var i :| 0 <= i < |ids| && ids[i] == k;
      assert rows[i] == t.rows[k];
    }
    assert forall i | 0 <= i < |rows| :: rows[i].id == ids[i];
    forall i, j | 0 <= i < j < |rows| ensures rows[i].date >= rows[j].date {
      assert DateRank(t.rows[ids[i]]) >= DateRank(t.rows[ids[j]]);
    }
  }

  /** A row dated strictly after every other row heads the listing. */
  lemma LatestFirst(t: PastFixTable, rows: seq<PastFixEntity>, k: int)
    requires Valid(t) && IsNewestFirst(t, rows)
    requires k in t.rows
    requires forall j | j in t.rows && j != k :: t.rows[j].date < t.rows[k].date
    ensures |rows| > 0 && rows[0] == t.rows[k]
  {
    var i :| 0 <= i < |rows| && rows[i] == t.rows[k];
  }

  /** `getFixById`: the row with that id, or null when there is none. */
  function GetFixById(t: PastFixTable, id: int): (r: Option<PastFixEntity>)
    requires Valid(t)
    ensures r.Some? <==> id in t.rows
    ensures r.Some? ==> r.value.id == id
  {
    if id in t.rows then Some(t.rows[id]) else None
  }

  datatype InsertOutcome =
    | Inserted(table: PastFixTable, id: int)
    | ConstraintFailure

  /**
   * `insertFix` with Room's default ABORT strategy: id 0 takes the next
   * AUTOINCREMENT id; a given id already present fails, leaving the table as
   * it was; any other given id is used as is. Returns the row's id.
   */
  function InsertFix(t: PastFixTable, e: PastFixEntity): (r: InsertOutcome)
    requires Valid(t)
    ensures r.Inserted? ==> Valid(r.table)
    ensures r.Inserted? ==> r.id !in t.rows && r.table.rows == t.rows[r.id := e.(id := r.id)]
    ensures e.id == 0 ==> r.Inserted? && r.id > 0
    ensures e.id != 0 ==> (r.ConstraintFailure? <==> e.id in t.rows)
    ensures e.id != 0 && r.Inserted? ==> r.id == e.id
  {
    if e.id == 0 then
      var id := Tables.NextId(t);
      Inserted(Tables.Put(t, id, e.(id := id)), id)
    else if e.id in t.rows then
      ConstraintFailure
    else
      Inserted(Tables.Put(t, e.id, e), e.id)
  }

  /** The DAO has no update or delete: an insert keeps every row and never shrinks the table. */
  lemma InsertOnlyGrows(t: PastFixTable, e: PastFixEntity)
    requires Valid(t)
    ensures var r := InsertFix(t, e);
            r.Inserted? ==> |r.table.rows| == |t.rows| + 1 &&
                            forall k | k in t.rows :: k in r.table.rows && r.table.rows[k] == t.rows[k]
  {
  }

  /** A row read back by the id its insert returned is the inserted row with that id. */
  lemma InsertThenGet(t: PastFixTable, e: PastFixEntity)
    requires Valid(t)
    ensures var r := InsertFix(t, e);
            r.Inserted? ==> GetFixById(r.table, r.id) == Some(e.(id := r.id))
  {
  }
}
