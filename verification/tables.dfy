/** The optional value a single-row query returns. */
module Base {

  datatype Option<+T> = None | Some(value: T)
}

/**
 This module models a relational table whose primary key is
 `INTEGER PRIMARY KEY AUTOINCREMENT`: the rows in storage (rowid) order, and
 the counter that hands out the next key. The queries the application runs
 reduce to four operations over it: insert with a fresh key, `SELECT ... WHERE`
 returning the first match (`fetchone`) or every match (`fetchall`), and
 `UPDATE ... WHERE id = ?`.
 */
module Tables {
  import opened Base

  /** One stored record: its primary key and its remaining columns. */
  datatype Row<T> = Row(id: nat, data: T)

  /** A table: rows in storage order and the next key AUTOINCREMENT will use. */
  datatype Table<T> = Table(rows: seq<Row<T>>, nextId: nat)

  /** The keys currently in use. */
  function Ids<T>(t: Table<T>): set<nat> {
    set i | 0 <= i < |t.rows| :: t.rows[i].id
  }

  /** Keys strictly increase along the storage order. */
  ghost predicate Increasing<T>(rows: seq<Row<T>>) {
    forall i, j :: 0 <= i < j < |rows| ==> rows[i].id < rows[j].id
  }

  /** Keys start at 1, stay below the counter, and are stored in increasing order
      (hence are pairwise distinct). */
  ghost predicate Valid<T>(t: Table<T>) {
    && 1 <= t.nextId
    && (forall i :: 0 <= i < |t.rows| ==> 1 <= t.rows[i].id < t.nextId)
    && Increasing(t.rows)
  }

  /** A freshly created table. */
  function Empty<T>(): (t: Table<T>)
    ensures Valid(t)
    ensures Ids(t) == {} && |t.rows| == 0
  {
    Table([], 1)
  }

  /** Index of the first row at or after `k` that satisfies `p`. */
  function FirstFrom<T>(rows: seq<Row<T>>, p: Row<T> -> bool, k: nat): (r: Option<nat>)
    requires k <= |rows|
    ensures r.Some? ==> k <= r.value < |rows| && p(rows[r.value])
    ensures r.Some? ==> forall j :: k <= j < r.value ==> !p(rows[j])
    ensures r.None? ==> forall j :: k <= j < |rows| ==> !p(rows[j])
    decreases |rows| - k
  {
    if k == |rows| then None
    else if p(rows[k]) then Some(k)
    else FirstFrom(rows, p, k + 1)
  }

  /** `SELECT * ... WHERE p` followed by `fetchone()`: the first match in storage order. */
  function FetchOne<T>(rows: seq<Row<T>>, p: Row<T> -> bool): (r: Option<Row<T>>)
    ensures r.None? <==> forall i :: 0 <= i < |rows| ==> !p(rows[i])
    ensures r.Some? ==> exists i :: 0 <= i < |rows| && rows[i] == r.value && p(rows[i])
                                    && forall j :: 0 <= j < i ==> !p(rows[j])
  {
    match FirstFrom(rows, p, 0)
    case None => None
    case Some(i) => Some(rows[i])
  }

  /** `SELECT * ... WHERE p` followed by `fetchall()`: every match, in storage order. */
  function FetchAll<T>(rows: seq<Row<T>>, p: Row<T> -> bool): (r: seq<Row<T>>)
    ensures forall i :: 0 <= i < |r| ==> r[i] in rows && p(r[i])
    ensures forall i :: 0 <= i < |rows| && p(rows[i]) ==> rows[i] in r
    ensures |r| <= |rows|
  {
    if |rows| == 0 then []
    else
      var rest := FetchAll(rows[1..], p);
      assert forall i :: 0 <= i < |rest| ==> rest[i] in rows by {
        forall i | 0 <= i < |rest| ensures rest[i] in rows {
          var j :| 0 <= j < |rows[1..]| && rows[1..][j] == rest[i];
          assert rows[j + 1] == rest[i];
        }
      }
      assert forall i :: 1 <= i < |rows| ==> rows[i] == rows[1..][i - 1];
      if p(rows[0]) then [rows[0]] + rest else rest
  }

  /** The rows `FetchAll` returns keep the storage order of the table. */
  lemma {:induction false} FetchAllIncreasing<T>(rows: seq<Row<T>>, p: Row<T> -> bool)
    requires Increasing(rows)
    ensures Increasing(FetchAll(rows, p))
    decreases |rows|
  {
    if |rows| > 0 {
      FetchAllIncreasing(rows[1..], p);
      if p(rows[0]) {
        FetchAllAbove(rows[1..], p, rows[0].id);
        ConsIncreasing(rows[0], FetchAll(rows[1..], p));
      }
    }
  }

  /** Selection only returns stored rows, so a lower bound on the stored keys
      bounds the selected ones. */
  lemma FetchAllAbove<T>(rows: seq<Row<T>>, p: Row<T> -> bool, b: int)
    requires forall i :: 0 <= i < |rows| ==> b < rows[i].id
    ensures forall i :: 0 <= i < |FetchAll(rows, p)| ==> b < FetchAll(rows, p)[i].id
  {
  }

  lemma ConsIncreasing<T>(x: Row<T>, rest: seq<Row<T>>)
    requires Increasing(rest) && forall i :: 0 <= i < |rest| ==> x.id < rest[i].id
    ensures Increasing([x] + rest)
  {
    var r := [x] + rest;
    forall i, j | 0 <= i < j < |r| ensures r[i].id < r[j].id {
      assert r[j] == rest[j - 1];
      if i > 0 { assert r[i] == rest[i - 1]; }
    }
  }

  /** Selecting from a table after an append selects what it did before,
      followed by the new row if it matches. */
  lemma {:induction false} FetchAllAppend<T>(rows: seq<Row<T>>, x: Row<T>, p: Row<T> -> bool)
    ensures FetchAll(rows + [x], p) == FetchAll(rows, p) + (if p(x) then [x] else [])
    decreases |rows|
  {
    if |rows| > 0 {
      assert (rows + [x])[1..] == rows[1..] + [x];
      FetchAllAppend(rows[1..], x, p);
    } else {
      assert rows + [x] == [x];
    }
  }

  /** `SELECT * ... WHERE id = ?` followed by `fetchone()`. */
  function Find<T>(t: Table<T>, id: nat): (r: Option<Row<T>>)
    ensures r.None? <==> id !in Ids(t)
    ensures r.Some? ==> r.value.id == id && r.value in t.rows
  {
    FetchOne(t.rows, (x: Row<T>) => x.id == id)
  }

  /** `t'` is `t` with exactly one row appended: key `id`, columns `d`. */
  ghost predicate AddsRow<T>(t: Table<T>, t': Table<T>, id: nat, d: T) {
    && |t'.rows| == |t.rows| + 1
    && t'.rows[..|t.rows|] == t.rows
    && t'.rows[|t.rows|] == Row(id, d)
    && Ids(t') == Ids(t) + {id}
    && (Valid(t) ==> id !in Ids(t) && Valid(t'))
  }

  /** `INSERT` with AUTOINCREMENT: the new row takes the counter's value as its
      key, which no stored row uses, and is stored after every existing row. */
  function Insert<T>(t: Table<T>, d: T): (r: (Table<T>, nat))
    ensures r.1 == t.nextId
    ensures AddsRow(t, r.0, r.1, d)
  {
    var r := (Table(t.rows + [Row(t.nextId, d)], t.nextId + 1), t.nextId);
    assert forall i :: 0 <= i < |t.rows| ==> r.0.rows[i] == t.rows[i];
    assert r.0.rows[|t.rows|].id == t.nextId;
    assert Ids(r.0) == Ids(t) + {r.1} by {
      forall k | k in Ids(r.0) ensures k in Ids(t) + {r.1} {
        var i :| 0 <= i < |r.0.rows| && r.0.rows[i].id == k;
        if i < |t.rows| { assert t.rows[i].id == k; }
      }
      forall k | k in Ids(t) ensures k in Ids(r.0) {
        var i :| 0 <= i < |t.rows| && t.rows[i].id == k;
        assert r.0.rows[i].id == k;
      }
    }
    r
  }

  /** `UPDATE ... SET ... WHERE id = ?`: every row with that key has its columns
      rewritten by `f`; every other row, the order, the keys and the counter are
      untouched. */
  function UpdateWhereId<T>(t: Table<T>, id: nat, f: T -> T): (r: Table<T>)
    ensures r.nextId == t.nextId && |r.rows| == |t.rows| && Ids(r) == Ids(t)
    ensures forall i :: 0 <= i < |t.rows| ==> r.rows[i].id == t.rows[i].id
    ensures forall i :: 0 <= i < |t.rows| && t.rows[i].id == id ==> r.rows[i].data == f(t.rows[i].data)
    ensures forall i :: 0 <= i < |t.rows| && t.rows[i].id != id ==> r.rows[i] == t.rows[i]
    ensures Valid(t) ==> Valid(r)
    ensures id !in Ids(t) ==> r == t
  {
    var rows := seq(|t.rows|, i requires 0 <= i < |t.rows| =>
                      if t.rows[i].id == id then Row(id, f(t.rows[i].data)) else t.rows[i]);
    assert forall i :: 0 <= i < |t.rows| ==> rows[i].id == t.rows[i].id;
    assert Ids(Table(rows, t.nextId)) == Ids(t) by {
      forall k | k in Ids(t) ensures k in Ids(Table(rows, t.nextId)) {
        var i :| 0 <= i < |t.rows| && t.rows[i].id == k;
        assert rows[i].id == k;
      }
    }
    assert id !in Ids(t) ==> rows == t.rows by {
      if id !in Ids(t) {
        forall i | 0 <= i < |t.rows| ensures rows[i] == t.rows[i] {
          assert t.rows[i].id in Ids(t);
        }
      }
    }
    Table(rows, t.nextId)
  }

  /** In a valid table a stored row is the one its key finds. */
  lemma FindStored<T>(t: Table<T>, x: Row<T>)
    requires Valid(t) && x in t.rows
    ensures Find(t, x.id) == Some(x)
  {
    var i :| 0 <= i < |t.rows| && t.rows[i] == x;
    var r := Find(t, x.id);
    assert x.id in Ids(t);
    var j :| 0 <= j < |t.rows| && t.rows[j] == r.value
             && forall jj :: 0 <= jj < j ==> t.rows[jj].id != x.id;
  }

  /** After a row is appended, its key finds it and every other key finds what
      it found before. */
  lemma FindAfterAdd<T>(t: Table<T>, t': Table<T>, id: nat, d: T, k: nat)
    requires Valid(t) && AddsRow(t, t', id, d)
    ensures Find(t', id) == Some(Row(id, d))
    ensures k != id ==> Find(t', k) == Find(t, k)
  {
    assert t'.rows[|t.rows|] == Row(id, d);
    FindStored(t', Row(id, d));
    if k != id && k in Ids(t) {
      var x := Find(t, k).value;
      var i :| 0 <= i < |t.rows| && t.rows[i] == x;
      assert t'.rows[i] == t'.rows[..|t.rows|][i];
      FindStored(t', x);
    }
  }
}
