/**
 Database tables as sequences of rows, with the find-then-insert-or-update access the source uses.
 No table has a unique index, so nothing but the code itself keeps keys unique: the lemmas say
 when a table refines the finite map from keys to values.
 */
module Tables {
  import opened Wrappers

  datatype Row<K, V> = Row(key: K, value: V)

  ghost predicate UniqueKeys<K, V>(rows: seq<Row<K, V>>) {
    forall i, j :: 0 <= i < j < |rows| ==> rows[i].key != rows[j].key
  }

  ghost predicate HasKey<K, V>(rows: seq<Row<K, V>>, k: K) {
    exists i :: 0 <= i < |rows| && rows[i].key == k
  }

  /** The finite map a table stands for; with duplicates the later row wins. */
  function ToMap<K, V>(rows: seq<Row<K, V>>): (m: map<K, V>) {
    if rows == [] then map[]
    else ToMap(rows[..|rows| - 1])[rows[|rows| - 1].key := rows[|rows| - 1].value]
  }

  function FirstMatch<K(==), V>(rows: seq<Row<K, V>>, k: K): (r: Option<nat>)
    ensures r.None? <==> !HasKey(rows, k)
    ensures r.Some? ==> r.value < |rows| && rows[r.value].key == k
  {
    if rows == [] then None
    else if rows[0].key == k then Some(0)
    else
      match FirstMatch(rows[1..], k)
      case None =>
        assert forall i :: 1 <= i < |rows| ==> rows[i] == rows[1..][i - 1];
        None
      case Some(i) => Some(i + 1)
  }

  /** The row that an unordered `.one()` query for a key returns: any matching row, chosen by `pick`. */
  function One<K(==), V>(rows: seq<Row<K, V>>, k: K, pick: nat): (r: Option<nat>)
    ensures r.None? <==> !HasKey(rows, k)
    ensures r.Some? ==> r.value < |rows| && rows[r.value].key == k
    ensures pick < |rows| && rows[pick].key == k ==> r == Some(pick)
  {
    if pick < |rows| && rows[pick].key == k then Some(pick) else FirstMatch(rows, k)
  }

  /** Find by key, then update the row found, or insert a new row. */
  function Upsert<K(==), V>(rows: seq<Row<K, V>>, k: K, v: V, pick: nat): (r: seq<Row<K, V>>) {
    match One(rows, k, pick)
    case Some(i) => rows[i := Row(k, v)]
    case None => rows + [Row(k, v)]
  }

  /** The rows whose key satisfies a filter, in table order. */
  function Select<K, V>(rows: seq<Row<K, V>>, keep: K -> bool): (r: seq<Row<K, V>>) {
    if rows == [] then []
    else
      var rest := Select(rows[..|rows| - 1], keep);
      if keep(rows[|rows| - 1].key) then rest + [rows[|rows| - 1]] else rest
  }

  function Not<K>(f: K -> bool): K -> bool {
    k => !f(k)
  }

  function Both<K>(f: K -> bool, g: K -> bool): K -> bool {
    k => f(k) && g(k)
  }

  /** A filtered delete: the rows whose key does not satisfy the filter stay. */
  function Delete<K, V>(rows: seq<Row<K, V>>, drop: K -> bool): (r: seq<Row<K, V>>) {
    Select(rows, Not(drop))
  }

  lemma {:induction false} ToMapKeys<K, V>(rows: seq<Row<K, V>>, k: K)
    ensures k in ToMap(rows) <==> HasKey(rows, k)
  {
    if rows != [] {
      var n := |rows| - 1;
      ToMapKeys(rows[..n], k);
      if HasKey(rows, k) && rows[n].key != k {
        var i :| 0 <= i < |rows| && rows[i].key == k;
        assert rows[..n][i].key == k;
      }
    }
  }

  /** With unique keys the map holds exactly the value of each row. */
  lemma {:induction false} ToMapAt<K, V>(rows: seq<Row<K, V>>, i: nat)
    requires UniqueKeys(rows) && i < |rows|
    ensures rows[i].key in ToMap(rows) && ToMap(rows)[rows[i].key] == rows[i].value
  {
    if i < |rows| - 1 {
      ToMapAt(rows[..|rows| - 1], i);
    }
  }

  lemma {:induction false} ToMapUpdate<K, V>(rows: seq<Row<K, V>>, i: nat, v: V)
    requires UniqueKeys(rows) && i < |rows|
    ensures ToMap(rows[i := Row(rows[i].key, v)]) == ToMap(rows)[rows[i].key := v]
  {
    var n := |rows| - 1;
    var next := rows[i := Row(rows[i].key, v)];
    if i < n {
      ToMapUpdate(rows[..n], i, v);
      assert next[..n] == rows[..n][i := Row(rows[i].key, v)];
    } else {
      assert next[..n] == rows[..n];
    }
  }

  /** Upsert keeps one row per key and refines map update, whichever row the query returned. */
  lemma UpsertRefines<K, V>(rows: seq<Row<K, V>>, k: K, v: V, pick: nat)
    requires UniqueKeys(rows)
    ensures UniqueKeys(Upsert(rows, k, v, pick))
    ensures ToMap(Upsert(rows, k, v, pick)) == ToMap(rows)[k := v]
  {
    match One(rows, k, pick)
    case Some(i) => ToMapUpdate(rows, i, v);
    case None => assert (rows + [Row(k, v)])[..|rows|] == rows;
  }

  lemma UpsertUnique<K, V>(rows: seq<Row<K, V>>, k: K, v: V, pick: nat)
    ensures UniqueKeys(Upsert(rows, k, v, pick)) <==> UniqueKeys(rows)
  {
    var next := Upsert(rows, k, v, pick);
    assert forall i :: 0 <= i < |rows| ==> next[i].key == rows[i].key;
  }

  lemma {:induction false} SelectIn<K, V>(rows: seq<Row<K, V>>, keep: K -> bool, r: Row<K, V>)
    ensures r in Select(rows, keep) <==> r in rows && keep(r.key)
  {
    if rows != [] {
      var n := |rows| - 1;
      SelectIn(rows[..n], keep, r);
      assert rows == rows[..n] + [rows[n]];
    }
  }

  lemma {:induction false} SelectUnique<K, V>(rows: seq<Row<K, V>>, keep: K -> bool)
    requires UniqueKeys(rows)
    ensures UniqueKeys(Select(rows, keep))
  {
    if rows != [] {
      var n := |rows| - 1;
      SelectUnique(rows[..n], keep);
      var rest := Select(rows[..n], keep);
      forall i | 0 <= i < |rest| ensures rest[i].key != rows[n].key {
        SelectIn(rows[..n], keep, rest[i]);
        var j :| 0 <= j < n && rows[j] == rest[i];
      }
    }
  }

  /** A filtered query refines map restriction. */
  lemma {:induction false} SelectRefines<K, V>(rows: seq<Row<K, V>>, keep: K -> bool)
    ensures ToMap(Select(rows, keep)) == map k | k in ToMap(rows) && keep(k) :: ToMap(rows)[k]
  {
    if rows != [] {
      var n := |rows| - 1;
      SelectRefines(rows[..n], keep);
      var rest := Select(rows[..n], keep);
      if keep(rows[n].key) {
        assert (rest + [rows[n]])[..|rest|] == rest;
      }
    }
  }

  lemma DeleteRefines<K, V>(rows: seq<Row<K, V>>, drop: K -> bool)
    requires UniqueKeys(rows)
    ensures UniqueKeys(Delete(rows, drop))
    ensures ToMap(Delete(rows, drop)) == map k | k in ToMap(rows) && !drop(k) :: ToMap(rows)[k]
  {
    SelectUnique(rows, Not(drop));
    SelectRefines(rows, Not(drop));
  }

  /** Selecting twice is selecting by the conjunction. */
  lemma {:induction false} SelectSelect<K, V>(rows: seq<Row<K, V>>, f: K -> bool, g: K -> bool)
    ensures Select(Select(rows, f), g) == Select(rows, Both(f, g))
  {
    if rows != [] {
      var n := |rows| - 1;
      SelectSelect(rows[..n], f, g);
      var rest := Select(rows[..n], f);
      if f(rows[n].key) {
        assert (rest + [rows[n]])[..|rest|] == rest;
      }
    }
  }

  lemma {:induction false} SelectSame<K, V>(rows: seq<Row<K, V>>, f: K -> bool, g: K -> bool)
    requires forall r :: r in rows ==> (f(r.key) <==> g(r.key))
    ensures Select(rows, f) == Select(rows, g)
  {
    if rows != [] {
      assert rows[|rows| - 1] in rows;
      SelectSame(rows[..|rows| - 1], f, g);
    }
  }

  /** A delete leaves every selection it shares no row with as it was. */
  lemma DeleteOutside<K, V>(rows: seq<Row<K, V>>, drop: K -> bool, keep: K -> bool)
    requires forall r :: r in rows ==> !(drop(r.key) && keep(r.key))
    ensures Select(Delete(rows, drop), keep) == Select(rows, keep)
  {
    SelectSelect(rows, Not(drop), keep);
    SelectSame(rows, Both(Not(drop), keep), keep);
  }

  lemma {:induction false} UpdateOutside<K, V>(rows: seq<Row<K, V>>, i: nat, v: V, keep: K -> bool)
    requires i < |rows| && !keep(rows[i].key)
    ensures Select(rows[i := Row(rows[i].key, v)], keep) == Select(rows, keep)
  {
    var n := |rows| - 1;
    var next := rows[i := Row(rows[i].key, v)];
    if i < n {
      UpdateOutside(rows[..n], i, v, keep);
      assert next[..n] == rows[..n][i := Row(rows[i].key, v)];
    } else {
      assert next[..n] == rows[..n];
    }
  }

  /** Upserting a row leaves every selection that its key is not in as it was. */
  lemma UpsertOutside<K, V>(rows: seq<Row<K, V>>, k: K, v: V, pick: nat, keep: K -> bool)
    requires !keep(k)
    ensures Select(Upsert(rows, k, v, pick), keep) == Select(rows, keep)
  {
    match One(rows, k, pick)
    case Some(i) => UpdateOutside(rows, i, v, keep);
    case None => assert (rows + [Row(k, v)])[..|rows|] == rows;
  }

  lemma HasKeyIsIn<K, V>(rows: seq<Row<K, V>>, k: K)
    ensures HasKey(rows, k) <==> exists r :: r in rows && r.key == k
  {
    if HasKey(rows, k) {
      var i :| 0 <= i < |rows| && rows[i].key == k;
      assert rows[i] in rows;
    }
  }

  lemma DeleteHasKey<K, V>(rows: seq<Row<K, V>>, drop: K -> bool, k: K)
    ensures HasKey(Delete(rows, drop), k) <==> HasKey(rows, k) && !drop(k)
  {
    var left := Delete(rows, drop);
    HasKeyIsIn(rows, k);
    HasKeyIsIn(left, k);
    if HasKey(rows, k) {
      var r :| r in rows && r.key == k;
      SelectIn(rows, Not(drop), r);
    }
    if HasKey(left, k) {
      var r :| r in left && r.key == k;
      SelectIn(rows, Not(drop), r);
    }
  }
}
