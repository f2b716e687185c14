/**
 * A SQLite table whose primary key is `INTEGER PRIMARY KEY AUTOINCREMENT`,
 * seen as a map from id to row plus the largest id ever handed out (the
 * table's `sqlite_sequence` entry), and the `ORDER BY <column> DESC` reads
 * that Room's DAOs run over it.
 */
module Tables {

  datatype Table<R> = Table(rows: map<int, R>, lastId: int)

  /** Every stored id is at most the largest id ever used. */
  ghost predicate Valid<R>(t: Table<R>) {
    t.lastId >= 0 && forall k | k in t.rows :: k <= t.lastId
  }

  function Empty<R>(): (t: Table<R>)
    ensures Valid(t) && |t.rows| == 0
  {
    Table(map[], 0)
  }

  /** The id AUTOINCREMENT gives a row inserted without one. */
  function NextId<R>(t: Table<R>): (id: int)
    requires Valid(t)
    ensures id > 0 && id !in t.rows
  {
    t.lastId + 1
  }

  /** Stores `row` under `id`, replacing any row already there. */
  function Put<R>(t: Table<R>, id: int, row: R): (t': Table<R>)
    requires Valid(t)
    ensures Valid(t')
    ensures id in t'.rows && t'.rows[id] == row
    ensures t'.rows.Keys == t.rows.Keys + {id}
    ensures forall k | k in t.rows && k != id :: t'.rows[k] == t.rows[k]
  {
    Table(t.rows[id := row], if id > t.lastId then id else t.lastId)
  }

  /** Removes the row stored under `id`, if any; the sequence is kept. */
  function Remove<R>(t: Table<R>, id: int): (t': Table<R>)
    requires Valid(t)
    ensures Valid(t')
    ensures t'.rows.Keys == t.rows.Keys - {id}
    ensures forall k | k in t'.rows :: t'.rows[k] == t.rows[k]
    ensures t'.lastId == t.lastId
  {
    Table(t.rows - {id}, t.lastId)
  }

  // ---------------------------------------------------------------------
  // SELECT ... [WHERE keep] ORDER BY rank DESC

  ghost predicate InTable<R>(rows: map<int, R>, ids: seq<int>) {
    forall i | 0 <= i < |ids| :: ids[i] in rows
  }

  ghost predicate Distinct(ids: seq<int>) {
    forall i, j | 0 <= i < j < |ids| :: ids[i] != ids[j]
  }

  ghost predicate SortedDesc<R>(rows: map<int, R>, rank: R -> real, ids: seq<int>)
    requires InTable(rows, ids)
  {
    forall i, j | 0 <= i < j < |ids| :: rank(rows[ids[i]]) >= rank(rows[ids[j]])
  }

  /**
   * `ids` is a valid answer to the query: every kept row exactly once, no
   * other row, ranks non-increasing. Rows of equal rank may come in any
   * order, as SQL leaves it unspecified.
   */
  ghost predicate IsListing<R>(rows: map<int, R>, rank: R -> real, keep: R -> bool, ids: seq<int>) {
    && InTable(rows, ids)
    && (forall i | 0 <= i < |ids| :: keep(rows[ids[i]]))
    && (forall k | k in rows && keep(rows[k]) :: k in ids)
    && Distinct(ids)
    && SortedDesc(rows, rank, ids)
  }

  /** The position at which a row of rank `x` joins a descending listing. */
  function InsertPos<R>(rows: map<int, R>, rank: R -> real, ids: seq<int>, x: real): (p: nat)
    requires InTable(rows, ids)
    ensures p <= |ids|
    ensures forall i | 0 <= i < p :: rank(rows[ids[i]]) >= x
    ensures p < |ids| ==> rank(rows[ids[p]]) < x
  {
    if ids == [] || rank(rows[ids[0]]) < x then 0
    else 1 + InsertPos(rows, rank, ids[1..], x)
  }

  /** A descending listing with `k` inserted at its place. */
  function InsertByRank<R>(rows: map<int, R>, rank: R -> real, ids: seq<int>, k: int): seq<int>
    requires InTable(rows, ids) && k in rows
  {
    var p := InsertPos(rows, rank, ids, rank(rows[k]));
    ids[..p] + [k] + ids[p..]
  }

  lemma InsertByRankShape<R>(rows: map<int, R>, rank: R -> real, ids: seq<int>, k: int)
    requires InTable(rows, ids) && k in rows
    ensures var p := InsertPos(rows, rank, ids, rank(rows[k]));
            var ids' := InsertByRank(rows, rank, ids, k);
            && |ids'| == |ids| + 1
            && (forall i | 0 <= i < p :: ids'[i] == ids[i])
            && ids'[p] == k
            && (forall i | p < i < |ids'| :: ids'[i] == ids[i - 1])
  {
  }

  lemma InsertByRankSorted<R>(rows: map<int, R>, rank: R -> real, ids: seq<int>, k: int)
    requires InTable(rows, ids) && SortedDesc(rows, rank, ids) && k in rows
    ensures var ids' := InsertByRank(rows, rank, ids, k);
            InTable(rows, ids') && SortedDesc(rows, rank, ids')
  {
    var x := rank(rows[k]);
    var p := InsertPos(rows, rank, ids, x);
    var ids' := InsertByRank(rows, rank, ids, k);
    InsertByRankShape(rows, rank, ids, k);
    forall i, j | 0 <= i < j < |ids'|
      ensures rank(rows[ids'[i]]) >= rank(rows[ids'[j]])
    {
      if i == p && j > p + 1 {
        assert rank(rows[ids[p]]) >= rank(rows[ids[j - 1]]);
      }
    }
  }

  lemma InsertByRankMembers<R>(rows: map<int, R>, rank: R -> real, ids: seq<int>, k: int)
    requires InTable(rows, ids) && Distinct(ids) && k in rows && k !in ids
    ensures var ids' := InsertByRank(rows, rank, ids, k);
            && Distinct(ids')
            && forall j :: j in ids' <==> j in ids || j == k
  {
    var p := InsertPos(rows, rank, ids, rank(rows[k]));
    var ids' := InsertByRank(rows, rank, ids, k);
    InsertByRankShape(rows, rank, ids, k);
    forall j ensures j in ids' <==> j in ids || j == k {
      if j in ids {
        var i :| 0 <= i < |ids| && ids[i] == j;
        assert ids'[if i < p then i else i + 1] == j;
      }
    }
  }

  lemma NonEmptyHasMember(s: set<int>)
    requires s != {}
    ensures exists x :: x in s
  {
    if forall x :: x !in s { }
  }

  /**
   * Runs the query over `rows`: the kept rows' ids, ranks non-increasing,
   * built by insertion in whatever order the table yields its keys.
   */
  method Listing<R>(rows: map<int, R>, rank: R -> real, keep: R -> bool) returns (ids: seq<int>)
    ensures IsListing(rows, rank, keep, ids)
  {
    ids := [];
    var todo := rows.Keys;
    while todo != {}
      invariant todo <= rows.Keys
      invariant InTable(rows, ids) && Distinct(ids) && SortedDesc(rows, rank, ids)
      invariant forall j | j in ids :: j in rows && j !in todo && keep(rows[j])
      invariant forall k | k in rows && k !in todo && keep(rows[k]) :: k in ids
      decreases todo
    {
      NonEmptyHasMember(todo);
      var k :| k in todo;
      if keep(rows[k]) {
        InsertByRankSorted(rows, rank, ids, k);
        InsertByRankMembers(rows, rank, ids, k);
        ids := InsertByRank(rows, rank, ids, k);
      }
      todo := todo - {k};
    }
  }

  /**
   * In any listing, a kept row whose rank is strictly above every other kept
   * row's comes first.
   */
  lemma StrictMaximumFirst<R>(rows: map<int, R>, rank: R -> real, keep: R -> bool, ids: seq<int>, k: int)
    requires IsListing(rows, rank, keep, ids)
    requires k in rows && keep(rows[k])
    requires forall j | j in rows && j != k && keep(rows[j]) :: rank(rows[j]) < rank(rows[k])
    ensures |ids| > 0 && ids[0] == k
  {
    var i :| 0 <= i < |ids| && ids[i] == k;
  }

  /** The listing holds as many ids as there are kept rows. */
  lemma ListingCount<R>(rows: map<int, R>, rank: R -> real, keep: R -> bool, ids: seq<int>)
    requires IsListing(rows, rank, keep, ids)
    ensures |ids| == |set k | k in rows && keep(rows[k])|
    ensures (forall k | k in rows :: keep(rows[k])) ==> |ids| == |rows|
  {
    var kept := set k | k in rows && keep(rows[k]);
    DistinctCount(ids);
    var listed := set i | 0 <= i < |ids| :: ids[i];
    forall k | k in kept ensures k in listed {
      var i :| 0 <= i < |ids| && ids[i] == k;
    }
    assert listed == kept;
    if forall k | k in rows :: keep(rows[k]) {
      assert kept == rows.Keys;
    }
  }

  lemma {:induction false} DistinctCount(ids: seq<int>)
    requires Distinct(ids)
    ensures |set i | 0 <= i < |ids| :: ids[i]| == |ids|
  {
    if ids != [] {
      var rest := ids[..|ids| - 1];
      DistinctCount(rest);
      var s := set i | 0 <= i < |ids| :: ids[i];
      var s' := set i | 0 <= i < |rest| :: rest[i];
      assert s == s' + {ids[|ids| - 1]};
      assert ids[|ids| - 1] !in s';
    }
  }
}
