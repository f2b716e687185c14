/** The `experts` table, the professional directory, and its DAO. */
module Experts {
  import opened Wrappers
  import Tables

  /**
   * A directory entry. `id` 0 asks the database to choose the id;
   * `createdAt` defaults to the creation time, which the caller passes in.
   * `hourlyRate` and `rating` are kept as exact reals.
   */
  datatype ExpertEntity = ExpertEntity(
    id: int := 0,
    name: string,
    category: string,
    phone: string,
    email: string,
    hourlyRate: real,
    description: string,
    availability: string,
    rating: real,
    yearsExperience: int,
    certifications: string,
    serviceArea: string,
    createdAt: int)

  const TABLE_NAME: string := "experts"

  /** The entity's columns, named after its fields, in declaration order. */
  const COLUMNS: seq<string> := [
    "id", "name", "category", "phone", "email", "hourlyRate", "description",
    "availability", "rating", "yearsExperience", "certifications", "serviceArea", "createdAt"]

  type ExpertTable = Tables.Table<ExpertEntity>

  ghost predicate Valid(t: ExpertTable) {
    Tables.Valid(t) && forall k | k in t.rows :: t.rows[k].id == k
  }

  function RatingRank(e: ExpertEntity): real {
    e.rating
  }

  /** The WHERE clause of a read: every row, or the rows of one category. */
  function Matches(category: Option<string>): ExpertEntity -> bool {
    (e: ExpertEntity) => category.None? || e.category == category.value
  }

  /**
   * `rows` answers `SELECT * FROM experts [WHERE category = c] ORDER BY rating DESC`:
   * exactly the matching rows, each once, best rated first.
   */
  ghost predicate IsByRating(t: ExpertTable, category: Option<string>, rows: seq<ExpertEntity>) {
    && (forall i | 0 <= i < |rows| :: rows[i].id in t.rows && t.rows[rows[i].id] == rows[i])
    && (forall i | 0 <= i < |rows| :: category.None? || rows[i].category == category.value)
    && (forall k | k in t.rows && (category.None? || t.rows[k].category == category.value) :: t.rows[k] in rows)
    && (forall i, j | 0 <= i < j < |rows| :: rows[i].id != rows[j].id)
    && (forall i, j | 0 <= i < j < |rows| :: rows[i].rating >= rows[j].rating)
  }

  method Query(t: ExpertTable, category: Option<string>) returns (rows: seq<ExpertEntity>)
    requires Valid(t)
    ensures IsByRating(t, category, rows)
  {
    var keep := Matches(category);
    var ids := Tables.Listing(t.rows, RatingRank, keep);
    rows := seq(|ids|, i requires 0 <= i < |ids| => t.rows[ids[i]]);
    forall k | k in t.rows && keep(t.rows[k]) ensures t.rows[k] in rows {
      var i :| 0 <= i < |ids| && ids[i] == k;
      assert rows[i] == t.rows[k];
    }
    forall i | 0 <= i < |rows| ensures rows[i].id == ids[i] && keep(rows[i]) {
    }
    forall i, j | 0 <= i < j < |rows| ensures rows[i].rating >= rows[j].rating {
      assert RatingRank(t.rows[ids[i]]) >= RatingRank(t.rows[ids[j]]);
    }
  }

  /** `getAllExperts`: every row once, rating non-increasing. */
  method GetAllExperts(t: ExpertTable) returns (rows: seq<ExpertEntity>)
    requires Valid(t)
    ensures IsByRating(t, None, rows)
    ensures |rows| == |t.rows|
  {
    rows := Query(t, None);
    var ids := seq(|rows|, i requires 0 <= i < |rows| => rows[i].id);
    assert Tables.IsListing(t.rows, RatingRank, Matches(None), ids) by {
      forall k | k in t.rows ensures k in ids {
        var i :| 0 <= i < |rows| && rows[i] == t.rows[k];
        assert ids[i] == k;
      }
    }
    Tables.ListingCount(t.rows, RatingRank, Matches(None), ids);
  }

  /** `getExpertsByCategory(c)`: exactly the rows of category `c`, rating non-increasing. */
  method GetExpertsByCategory(t: ExpertTable, category: string) returns (rows: seq<ExpertEntity>)
    requires Valid(t)
    ensures IsByRating(t, Some(category), rows)
  {
    rows := Query(t, Some(category));
  }

  /** `getExpertCount`. */
  function GetExpertCount(t: ExpertTable): nat {
    |t.rows|
  }

  /**
   * `insertExpert` with the REPLACE strategy: id 0 takes the next
   * AUTOINCREMENT id; a given id replaces the row stored there, or adds one.
   * Returns the new table and the row's id.
   */
  function InsertExpert(t: ExpertTable, e: ExpertEntity): (r: (ExpertTable, int))
    requires Valid(t)
    ensures Valid(r.0)
    ensures r.0.rows == t.rows[r.1 := e.(id := r.1)]
    ensures e.id == 0 ==> r.1 > 0 && r.1 !in t.rows
    ensures e.id == 0 ==> r.1 == t.lastId + 1 && r.0.lastId == r.1
    ensures e.id != 0 ==> r.1 == e.id
  {
    var id := if e.id == 0 then Tables.NextId(t) else e.id;
    (Tables.Put(t, id, e.(id := id)), id)
  }

  /** `updateExpert`: replaces the row with the entity's id; no such row, no change. */
  function UpdateExpert(t: ExpertTable, e: ExpertEntity): (t': ExpertTable)
    requires Valid(t)
    ensures Valid(t')
    ensures e.id in t.rows ==> t'.rows == t.rows[e.id := e]
    ensures e.id !in t.rows ==> t' == t
  {
    if e.id in t.rows then Tables.Put(t, e.id, e) else t
  }

  /** `deleteExpert`: removes the row with the entity's id, if any. */
  function DeleteExpert(t: ExpertTable, e: ExpertEntity): (t': ExpertTable)
    requires Valid(t)
    ensures Valid(t')
    ensures t'.rows == t.rows - {e.id}
  {
    Tables.Remove(t, e.id)
  }

  /** Insert keeps the count when it replaces and adds one otherwise. */
  lemma InsertCount(t: ExpertTable, e: ExpertEntity)
    requires Valid(t)
    ensures var (t', id) := InsertExpert(t, e);
            GetExpertCount(t') == if e.id != 0 && e.id in t.rows then GetExpertCount(t) else GetExpertCount(t) + 1
  {
    var (t', id) := InsertExpert(t, e);
    if e.id != 0 && e.id in t.rows {
      assert t'.rows.Keys == t.rows.Keys;
    } else {
      assert t'.rows.Keys == t.rows.Keys + {id};
    }
  }

  /** Deleting a freshly inserted row gives back the table's rows. */
  lemma InsertThenDelete(t: ExpertTable, e: ExpertEntity)
    requires Valid(t) && e.id !in t.rows
    ensures var (t', id) := InsertExpert(t, e);
            DeleteExpert(t', e.(id := id)).rows == t.rows
  {
  }

  /** Update and delete leave every other row as it was. */
  lemma OtherRowsUntouched(t: ExpertTable, e: ExpertEntity, k: int)
    requires Valid(t) && k in t.rows && k != e.id
    ensures UpdateExpert(t, e).rows[k] == t.rows[k]
    ensures k in DeleteExpert(t, e).rows && DeleteExpert(t, e).rows[k] == t.rows[k]
  {
  }
}
