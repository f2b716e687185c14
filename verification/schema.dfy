/**
 * The database file: schema versions, the two registered migrations, the
 * open-time upgrade to version 3, and the process-wide instance holder.
 * Tables are seen at the SQL level, rows as maps from column name to value.
 */
module Schema {
  import opened Wrappers
  import Experts

  datatype Value = VInt(i: int) | VReal(r: real) | VText(s: string)

  /** A NOT NULL column, with its DEFAULT if it has one. */
  datatype Column = Column(name: string, default: Option<Value>)

  datatype SqlTable = SqlTable(columns: seq<Column>, rows: map<int, map<string, Value>>)

  datatype Database = Database(version: int, tables: map<string, SqlTable>)

  datatype Opened = Ok(db: Database) | SqlError(message: string)

  const TARGET_VERSION: int := 3
  const PAST_FIXES: string := "past_fixes"
  const EXPERTS: string := "experts"
  const VIDEO_LINKS: string := "videoLinksJson"
  const EMPTY_LIST: Value := VText("[]")

  /** The columns of `past_fixes` as the app's entity declares them. */
  const PAST_FIX_COLUMNS: seq<Column> := [
    Column("id", None), Column("title", None), Column("difficulty", None),
    Column("estimatedTime", None), Column("toolsJson", None), Column("stepsJson", None),
    Column("category", None), Column("date", None), Column("status", None)]

  /** The columns the 2 -> 3 migration creates `experts` with, none with a DEFAULT. */
  const EXPERT_COLUMNS: seq<Column> := [
    Column("id", None), Column("name", None), Column("category", None), Column("phone", None),
    Column("email", None), Column("hourlyRate", None), Column("description", None),
    Column("availability", None), Column("rating", None), Column("yearsExperience", None),
    Column("certifications", None), Column("serviceArea", None), Column("createdAt", None)]

  function Names(cs: seq<Column>): (r: seq<string>)
    ensures |r| == |cs| && forall i | 0 <= i < |cs| :: r[i] == cs[i].name
  {
    if cs == [] then [] else [cs[0].name] + Names(cs[1..])
  }

  /** A migration is identified by the versions it connects. */
  datatype Migration = Migration(from: int, to: int)

  /** The migrations handed to the database builder, in order. */
  const REGISTERED: seq<Migration> := [Migration(1, 2), Migration(2, 3)]

  /** `MIGRATION_1_2`: `ALTER TABLE past_fixes ADD COLUMN videoLinksJson TEXT NOT NULL DEFAULT '[]'`. */
  function Migrate1To2(db: Database): (r: Opened)
    ensures PAST_FIXES !in db.tables ==> r.SqlError?
    ensures r.Ok? ==> PAST_FIXES in db.tables && PAST_FIXES in r.db.tables
    ensures r.Ok? ==> VIDEO_LINKS !in Names(db.tables[PAST_FIXES].columns)
    ensures r.Ok? ==>
      (var before := db.tables[PAST_FIXES];
       var after := r.db.tables[PAST_FIXES];
       && after.columns == before.columns + [Column(VIDEO_LINKS, Some(EMPTY_LIST))]
       && after.rows.Keys == before.rows.Keys
       && (forall k, c | k in before.rows && c in before.rows[k] && c in Names(before.columns) ::
             c in after.rows[k] && after.rows[k][c] == before.rows[k][c])
       && (forall k | k in after.rows :: VIDEO_LINKS in after.rows[k] && after.rows[k][VIDEO_LINKS] == EMPTY_LIST))
    ensures r.Ok? ==> forall name | name in db.tables && name != PAST_FIXES ::
                        name in r.db.tables && r.db.tables[name] == db.tables[name]
  {
    if PAST_FIXES !in db.tables then SqlError("no such table: past_fixes")
    else
      var t := db.tables[PAST_FIXES];
      if VIDEO_LINKS in Names(t.columns) then SqlError("duplicate column name: videoLinksJson")
      else
        var rows := map k | k in t.rows :: t.rows[k][VIDEO_LINKS := EMPTY_LIST];
        var t' := SqlTable(t.columns + [Column(VIDEO_LINKS, Some(EMPTY_LIST))], rows);
        Ok(db.(tables := db.tables[PAST_FIXES := t']))
  }

  /** `MIGRATION_2_3`: `CREATE TABLE IF NOT EXISTS experts (...)`. */
  function Migrate2To3(db: Database): (r: Database)
    ensures EXPERTS in db.tables ==> r == db
    ensures EXPERTS !in db.tables ==>
              && r.tables.Keys == db.tables.Keys + {EXPERTS}
              && r.tables[EXPERTS] == SqlTable(EXPERT_COLUMNS, map[])
    ensures forall name | name in db.tables :: name in r.tables && r.tables[name] == db.tables[name]
  {
    if EXPERTS in db.tables then db
    else db.(tables := db.tables[EXPERTS := SqlTable(EXPERT_COLUMNS, map[])])
  }

  /** The schema Room creates for a new database file, straight at version 3. */
  function Fresh(): Database {
    Database(TARGET_VERSION, map[
      PAST_FIXES := SqlTable(PAST_FIX_COLUMNS, map[]),
      EXPERTS := SqlTable(EXPERT_COLUMNS, map[])])
  }

  /**
   * Opening the file: none (or version 0) is created fresh; versions 1 and 2
   * run the registered migrations in order up to 3; version 3 is used as is;
   * anything else has no migration path (a downgrade) and fails.
   */
  function Open(existing: Option<Database>): (r: Opened)
    ensures r.Ok? ==> r.db.version == TARGET_VERSION
    ensures existing.Some? && existing.value.version > TARGET_VERSION ==> r.SqlError?
    ensures existing.Some? && existing.value.version == TARGET_VERSION ==> r == Ok(existing.value)
  {
    match existing
    case None => Ok(Fresh())
    case Some(db) =>
      if db.version <= 0 then Ok(Fresh())
      else if db.version == 1 then
        match Migrate1To2(db)
        case Ok(db2) => Ok(Migrate2To3(db2).(version := TARGET_VERSION))
        case SqlError(m) => SqlError(m)
      else if db.version == 2 then Ok(Migrate2To3(db).(version := TARGET_VERSION))
      else if db.version == TARGET_VERSION then Ok(db)
      else SqlError("A migration from " + "newer version to 3 was required but not found")
  }

  /** The registered migrations chain 1 -> 2 -> 3 and end at the target version. */
  lemma MigrationChain()
    ensures |REGISTERED| == 2
    ensures REGISTERED[0].from == 1
    ensures forall i | 0 <= i < |REGISTERED| - 1 :: REGISTERED[i].to == REGISTERED[i + 1].from
    ensures forall i | 0 <= i < |REGISTERED| :: REGISTERED[i].to == REGISTERED[i].from + 1
    ensures REGISTERED[|REGISTERED| - 1].to == TARGET_VERSION
  {
  }

  /** The table the 2 -> 3 migration creates has exactly the entity's columns. */
  lemma ExpertSchemaMatchesEntity()
    ensures |EXPERT_COLUMNS| == |Experts.COLUMNS|
    ensures forall i | 0 <= i < |EXPERT_COLUMNS| :: EXPERT_COLUMNS[i].name == Experts.COLUMNS[i]
  {
  }

  /** The value an insert stores in column `c`: the given one, else the DEFAULT. */
  function ValueFor(c: Column, values: map<string, Value>): Option<Value> {
    if c.name in values then Some(values[c.name]) else c.default
  }

  /** The row the columns take; a column with neither a value nor a DEFAULT violates NOT NULL. */
  function FillColumns(cols: seq<Column>, values: map<string, Value>): (r: Option<map<string, Value>>)
    ensures r.Some? <==> forall i | 0 <= i < |cols| :: ValueFor(cols[i], values).Some?
    ensures r.Some? ==> r.value.Keys == set i | 0 <= i < |cols| :: cols[i].name
    ensures r.Some? && |cols| > 0 ==>
              r.value[cols[|cols| - 1].name] == ValueFor(cols[|cols| - 1], values).value
    ensures r.Some? ==> forall k | k in r.value && k in values :: r.value[k] == values[k]
  {
    if cols == [] then Some(map[])
    else
      var last := cols[|cols| - 1];
      match (FillColumns(cols[..|cols| - 1], values), ValueFor(last, values))
      case (Some(row), Some(v)) =>
        var init := cols[..|cols| - 1];
        assert (set i | 0 <= i < |cols| :: cols[i].name)
            == (set i | 0 <= i < |init| :: init[i].name) + {last.name};
        Some(row[last.name := v])
      case _ => None
  }

  /**
   * The stored row of an INSERT naming the columns in `values`: a name that
   * is no column of the table is an error, as is a NOT NULL column left
   * without a value or a DEFAULT.
   */
  function FillRow(cols: seq<Column>, values: map<string, Value>): (r: Option<map<string, Value>>)
    ensures r.Some? <==> && (forall k | k in values :: k in Names(cols))
                         && (forall i | 0 <= i < |cols| :: ValueFor(cols[i], values).Some?)
    ensures r.Some? ==> r.value.Keys == set i | 0 <= i < |cols| :: cols[i].name
    ensures r.Some? ==> forall k | k in values :: k in r.value && r.value[k] == values[k]
  {
    if exists k | k in values :: k !in Names(cols) then None
    else
      var r := FillColumns(cols, values);
      if r.None? then None
      else
        assert forall k | k in values :: k in r.value by {
          forall k | k in values ensures k in r.value {
            var i :| 0 <= i < |cols| && Names(cols)[i] == k;
          }
        }
        r
  }

  /**
   * `INSERT` of the given column values under rowid `id`: a rowid already
   * stored violates the primary key, and the row must fill.
   */
  function InsertRow(t: SqlTable, id: int, values: map<string, Value>): (r: Option<SqlTable>)
    ensures r.Some? <==> id !in t.rows && FillRow(t.columns, values).Some?
    ensures r.Some? ==> r.value.columns == t.columns && r.value.rows.Keys == t.rows.Keys + {id}
    ensures r.Some? ==> forall k | k in t.rows :: r.value.rows[k] == t.rows[k]
    ensures r.Some? ==> r.value.rows[id] == FillRow(t.columns, values).value
  {
    if id in t.rows then None
    else
      match FillRow(t.columns, values)
      case Some(row) => Some(SqlTable(t.columns, t.rows[id := row]))
      case None => None
  }

  /** After 1 -> 2, a row inserted without `videoLinksJson` stores `'[]'` there. */
  lemma VideoLinksDefault(db: Database, id: int, values: map<string, Value>)
    requires Migrate1To2(db).Ok?
    requires VIDEO_LINKS !in values
    ensures var t := Migrate1To2(db).db.tables[PAST_FIXES];
            var r := InsertRow(t, id, values);
            r.Some? ==> VIDEO_LINKS in r.value.rows[id] && r.value.rows[id][VIDEO_LINKS] == EMPTY_LIST
  {
    var t := Migrate1To2(db).db.tables[PAST_FIXES];
    var n := |t.columns| - 1;
    assert t.columns[n] == Column(VIDEO_LINKS, Some(EMPTY_LIST));
  }

  /** Upgrading a version-1 file runs 1 -> 2, then 2 -> 3, and leaves version 3. */
  lemma UpgradeFromVersion1(db: Database)
    requires db.version == 1 && PAST_FIXES in db.tables && EXPERTS !in db.tables
    requires VIDEO_LINKS !in Names(db.tables[PAST_FIXES].columns)
    ensures var r := Open(Some(db));
            && r.Ok? && r.db.version == TARGET_VERSION
            && r.db.tables.Keys == db.tables.Keys + {EXPERTS}
            && r.db.tables[EXPERTS].rows == map[]
            && r.db.tables[PAST_FIXES].rows.Keys == db.tables[PAST_FIXES].rows.Keys
  {
  }

  /**
   * A version-1 file whose `past_fixes` has the entity's columns comes out of
   * the upgrade with one column more than the entity, and than a file
   * created fresh at version 3.
   */
  lemma UpgradedPastFixesHasExtraColumn(db: Database)
    requires db.version == 1 && PAST_FIXES in db.tables
    requires db.tables[PAST_FIXES].columns == PAST_FIX_COLUMNS
    ensures var r := Open(Some(db));
            && r.Ok?
            && r.db.tables[PAST_FIXES].columns == PAST_FIX_COLUMNS + [Column(VIDEO_LINKS, Some(EMPTY_LIST))]
            && VIDEO_LINKS in Names(r.db.tables[PAST_FIXES].columns)
            && VIDEO_LINKS !in Names(Fresh().tables[PAST_FIXES].columns)
  {
    NoVideoLinksColumn();
    UpgradeAppendsColumn(db);
    VideoLinksNamed();
  }

  /** Upgrading a version-1 file appends the one column to `past_fixes`. */
  lemma UpgradeAppendsColumn(db: Database)
    requires db.version == 1 && PAST_FIXES in db.tables
    requires VIDEO_LINKS !in Names(db.tables[PAST_FIXES].columns)
    ensures var r := Open(Some(db));
            && r.Ok?
            && r.db.tables[PAST_FIXES].columns == db.tables[PAST_FIXES].columns + [Column(VIDEO_LINKS, Some(EMPTY_LIST))]
  {
    var r1 := Migrate1To2(db);
    var db3 := Migrate2To3(r1.db);
    assert Open(Some(db)) == Ok(db3.(version := TARGET_VERSION));
  }

  /** The upgraded column list names `videoLinksJson`; the fresh one does not. */
  lemma VideoLinksNamed()
    ensures VIDEO_LINKS in Names(PAST_FIX_COLUMNS + [Column(VIDEO_LINKS, Some(EMPTY_LIST))])
    ensures VIDEO_LINKS !in Names(Fresh().tables[PAST_FIXES].columns)
  {
    NoVideoLinksColumn();
    var cols := PAST_FIX_COLUMNS + [Column(VIDEO_LINKS, Some(EMPTY_LIST))];
    assert Names(cols)[|cols| - 1] == VIDEO_LINKS;
  }

  /** No column the entity declares is named `videoLinksJson`. */
  lemma NoVideoLinksColumn()
    ensures VIDEO_LINKS !in Names(PAST_FIX_COLUMNS)
  {
    var ns := Names(PAST_FIX_COLUMNS);
    forall i | 0 <= i < |ns| ensures |ns[i]| < |VIDEO_LINKS| {
      assert ns[i] == PAST_FIX_COLUMNS[i].name;
      assert i == 0 || i == 1 || i == 2 || i == 3 || i == 4 || i == 5 || i == 6 || i == 7 || i == 8;
    }
  }

  // ---------------------------------------------------------------------
  // getInstance

  /** The companion object's `INSTANCE`, an instance being any token. */
  datatype Holder = Holder(instance: Option<int>)

  /**
   * `getInstance`, with the database the builder would produce passed in:
   * the held instance if there is one, else the new one, which is kept.
   */
  function GetInstance(h: Holder, built: int): (r: (Holder, int))
    ensures h.instance.Some? ==> r == (h, h.instance.value)
    ensures r.0.instance == Some(r.1)
  {
    match h.instance
    case Some(db) => (h, db)
    case None => (Holder(Some(built)), built)
  }

  /** The instances returned by a run of sequential calls. */
  function GetInstances(h: Holder, builds: seq<int>): (r: seq<int>)
    ensures |r| == |builds|
    decreases |builds|
  {
    if builds == [] then []
    else
      var (h', db) := GetInstance(h, builds[0]);
      [db] + GetInstances(h', builds[1..])
  }

  /** Sequentially, every call returns the instance the first call returned. */
  lemma {:induction false} SameInstance(h: Holder, builds: seq<int>)
    requires |builds| > 0
    ensures var r := GetInstances(h, builds);
            forall i | 0 <= i < |r| :: r[i] == r[0]
    ensures h.instance.Some? ==> GetInstances(h, builds)[0] == h.instance.value
    decreases |builds|
  {
    var (h', db) := GetInstance(h, builds[0]);
    if |builds| > 1 {
      SameInstance(h', builds[1..]);
    }
  }
}
