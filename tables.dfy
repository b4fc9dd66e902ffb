/**
 * The store's query primitives over one table, a sequence of rows in storage
 * order: `select ... where`, the `const [row] = await select ...` idiom that
 * keeps the first row, and `update ... set ... where`.
 */
module Tables {
  import opened Wrappers

  /** `select * from t where p`, in storage order. */
  function Where<T(!new)>(rows: seq<T>, p: T -> bool): (r: seq<T>)
    ensures |r| <= |rows|
    ensures forall x :: x in r <==> x in rows && p(x)
    ensures forall i :: 0 <= i < |r| ==> p(r[i])
  {
    if rows == [] then []
    else (if p(rows[0]) then [rows[0]] else []) + Where(rows[1..], p)
  }

  /** Selecting from two tables in turn selects from each in turn. */
  lemma {:induction false} WhereConcat<T(!new)>(a: seq<T>, b: seq<T>, p: T -> bool)
    ensures Where(a + b, p) == Where(a, p) + Where(b, p)
  {
    if a != [] {
      assert (a + b)[1..] == a[1..] + b;
      WhereConcat(a[1..], b, p);
    } else {
      assert a + b == b;
    }
  }

  /** Selecting from a table with one more row selects that row last, when it qualifies. */
  lemma WhereAppend<T(!new)>(rows: seq<T>, x: T, p: T -> bool)
    ensures Where(rows + [x], p) == Where(rows, p) + (if p(x) then [x] else [])
  {
    WhereConcat(rows, [x], p);
    assert Where([x], p) == (if p(x) then [x] else []) + Where([x][1..], p);
    assert [x][1..] == [];
  }

  /** A row the condition rejects can be dropped from anywhere without changing the selection. */
  lemma WhereSkipsRejected<T(!new)>(a: seq<T>, x: T, b: seq<T>, p: T -> bool)
    requires !p(x)
    ensures Where(a + [x] + b, p) == Where(a + b, p)
  {
    calc {
      Where(a + [x] + b, p);
      { WhereConcat(a + [x], b, p); }
      Where(a + [x], p) + Where(b, p);
      { WhereAppend(a, x, p); }
      Where(a, p) + Where(b, p);
      { WhereConcat(a, b, p); }
      Where(a + b, p);
    }
  }

  /** `const [row] = await select ... where p`: the first selected row, or nothing. */
  function FirstWhere<T(!new)>(rows: seq<T>, p: T -> bool): (r: Option<T>)
    ensures r.None? <==> forall x :: x in rows ==> !p(x)
    ensures r.Some? ==> r.value in rows && p(r.value)
  {
    var selected := Where(rows, p);
    if selected == [] then None else Some(selected[0])
  }

  /** The row `FirstWhere` returns is the earliest row in storage order satisfying `p`. */
  lemma {:induction false} FirstWhereIsEarliest<T(!new)>(rows: seq<T>, p: T -> bool)
    requires FirstWhere(rows, p).Some?
    ensures exists i :: 0 <= i < |rows| && rows[i] == FirstWhere(rows, p).value
                        && forall j :: 0 <= j < i ==> !p(rows[j])
  {
    if p(rows[0]) {
      assert rows[0] == FirstWhere(rows, p).value;
    } else {
      assert Where(rows, p) == Where(rows[1..], p);
      FirstWhereIsEarliest(rows[1..], p);
      var i :| 0 <= i < |rows[1..]| && rows[1..][i] == FirstWhere(rows[1..], p).value
               && forall j :: 0 <= j < i ==> !p(rows[1..][j]);
      assert rows[i + 1] == FirstWhere(rows, p).value;
      forall j | 0 <= j < i + 1 ensures !p(rows[j]) {
        if j > 0 { assert rows[j] == rows[1..][j - 1]; }
      }
    }
  }

  /** `update t set f(row) where p(row)`: every selected row is rewritten, every other row kept. */
  function UpdateWhere<T(!new)>(rows: seq<T>, p: T -> bool, f: T -> T): (r: seq<T>)
    ensures |r| == |rows|
    ensures forall i :: 0 <= i < |rows| ==> r[i] == if p(rows[i]) then f(rows[i]) else rows[i]
  {
    if rows == [] then []
    else [if p(rows[0]) then f(rows[0]) else rows[0]] + UpdateWhere(rows[1..], p, f)
  }

  /** `where(eq(t.key, k))`: the rows whose key is `k`. */
  function KeyIs<T(!new), K(==)>(key: T -> K, k: K): T -> bool {
    (x: T) => key(x) == k
  }

  /**
   * `update t set f where key = k`: the rows carrying `k` are rewritten in
   * place and every other row is kept.
   */
  function UpdateByKey<T(!new), K(==)>(rows: seq<T>, key: T -> K, k: K, f: T -> T): (r: seq<T>)
    ensures |r| == |rows|
    ensures forall i :: 0 <= i < |rows| ==> r[i] == if key(rows[i]) == k then f(rows[i]) else rows[i]
  {
    UpdateWhere(rows, KeyIs(key, k), f)
  }

  /** Any condition that tests the key selects the same rows as the key test itself. */
  lemma UpdateByKeyIsUpdateWhere<T(!new), K>(rows: seq<T>, key: T -> K, k: K, p: T -> bool, f: T -> T)
    requires forall x :: p(x) == (key(x) == k)
    ensures UpdateByKey(rows, key, k, f) == UpdateWhere(rows, p, f)
  {
    var a, b := UpdateByKey(rows, key, k, f), UpdateWhere(rows, p, f);
    assert forall i :: 0 <= i < |a| ==> a[i] == b[i];
  }

  /** An update that selects no row leaves the table as it was. */
  lemma UpdateNothing<T(!new)>(rows: seq<T>, p: T -> bool, f: T -> T)
    requires forall x :: x in rows ==> !p(x)
    ensures UpdateWhere(rows, p, f) == rows
  {
    var r := UpdateWhere(rows, p, f);
    assert forall i :: 0 <= i < |rows| ==> r[i] == rows[i];
  }

  /**
   * `update ... where p returning *` followed by `const [row] = ...`: when the
   * rewrite keeps `p`, the first updated row is the rewrite of the first
   * selected row of the old table.
   */
  lemma {:induction false} FirstWhereAfterUpdate<T(!new)>(rows: seq<T>, p: T -> bool, f: T -> T)
    requires forall x :: p(x) ==> p(f(x))
    ensures FirstWhere(UpdateWhere(rows, p, f), p)
         == match FirstWhere(rows, p) case Some(x) => Some(f(x)) case None => None
  {
    if rows != [] {
      var r := UpdateWhere(rows, p, f);
      assert r[1..] == UpdateWhere(rows[1..], p, f);
      assert r == [r[0]] + r[1..];
      if p(rows[0]) {
        assert Where(r, p)[0] == f(rows[0]);
      } else {
        assert Where(rows, p) == Where(rows[1..], p);
        assert Where(r, p) == Where(r[1..], p);
        FirstWhereAfterUpdate(rows[1..], p, f);
      }
    }
  }

  /** One key per row, in row order. */
  function Project<T(!new), K>(rows: seq<T>, key: T -> K): (ks: seq<K>)
    ensures |ks| == |rows|
    ensures forall i :: 0 <= i < |rows| ==> ks[i] == key(rows[i])
  {
    seq(|rows|, i requires 0 <= i < |rows| => key(rows[i]))
  }

  /** No two rows share a key: a primary key or a `.unique()` column. */
  predicate UniqueBy<T(!new), K(==)>(rows: seq<T>, key: T -> K) {
    forall i, j :: 0 <= i < |rows| && 0 <= j < |rows| && i != j ==> key(rows[i]) != key(rows[j])
  }

  /** `k` is the key of some row. */
  predicate HasKey<T(!new), K(==)>(rows: seq<T>, key: T -> K, k: K) {
    k in Project(rows, key)
  }

  lemma HasKeyIff<T(!new), K>(rows: seq<T>, key: T -> K, k: K)
    ensures HasKey(rows, key, k) <==> exists x :: x in rows && key(x) == k
  {
    if HasKey(rows, key, k) {
      var i :| 0 <= i < |rows| && Project(rows, key)[i] == k;
      assert rows[i] in rows;
    }
  }

  /** Inserting a row whose key is new keeps the key unique. */
  lemma AppendKeepsUnique<T(!new), K>(rows: seq<T>, x: T, key: T -> K)
    requires UniqueBy(rows, key)
    requires !HasKey(rows, key, key(x))
    ensures UniqueBy(rows + [x], key)
  {
    var r := rows + [x];
    forall i, j | 0 <= i < |r| && 0 <= j < |r| && i != j
      ensures key(r[i]) != key(r[j])
    {
      if i == |rows| { assert Project(rows, key)[j] == key(r[j]); }
      if j == |rows| { assert Project(rows, key)[i] == key(r[i]); }
    }
  }

  /** Inserting a row only adds keys. */
  lemma AppendKeepsKeys<T(!new), K>(rows: seq<T>, x: T, key: T -> K)
    ensures Project(rows + [x], key) == Project(rows, key) + [key(x)]
  {
  }

  /** An update whose rewrite keeps the key leaves the table's keys as they were. */
  lemma UpdateKeepsKeys<T(!new), K>(rows: seq<T>, p: T -> bool, f: T -> T, key: T -> K)
    requires forall x :: key(f(x)) == key(x)
    ensures Project(UpdateWhere(rows, p, f), key) == Project(rows, key)
  {
    var a, b := Project(UpdateWhere(rows, p, f), key), Project(rows, key);
    assert |a| == |b|;
    forall i | 0 <= i < |a| ensures a[i] == b[i] {
    }
  }

  /** Under a unique key, at most one row carries a given key. */
  lemma {:induction false} UniqueKeySelectsOne<T(!new), K>(rows: seq<T>, key: T -> K, k: K)
    requires UniqueBy(rows, key)
    ensures |Where(rows, (x: T) => key(x) == k)| <= 1
  {
    var p := (x: T) => key(x) == k;
    if rows != [] {
      assert UniqueBy(rows[1..], key) by {
        forall i, j | 0 <= i < |rows[1..]| && 0 <= j < |rows[1..]| && i != j
          ensures key(rows[1..][i]) != key(rows[1..][j])
        {
          assert rows[1..][i] == rows[i + 1] && rows[1..][j] == rows[j + 1];
        }
      }
      UniqueKeySelectsOne(rows[1..], key, k);
      if p(rows[0]) {
        forall x | x in rows[1..] ensures !p(x) {
          var j :| 0 <= j < |rows[1..]| && rows[1..][j] == x;
          assert rows[j + 1] == x;
        }
        var rest := Where(rows[1..], p);
        if rest != [] {
          assert rest[0] in rest;
        }
      }
    }
  }
}
