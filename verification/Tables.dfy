/** Database tables with an auto-increment primary key and a name column that need not be unique.
    Rows are kept in the order of their keys, which is the order they were created in. */
module Tables {
  datatype Row<T> = Row(id: nat, name: string, data: T)

  datatype Table<T> = Table(rows: seq<Row<T>>, nextID: nat)

  ghost predicate ValidTable<T>(t: Table<T>) {
    && t.nextID > 0
    && (forall i :: 0 <= i < |t.rows| ==> 0 < t.rows[i].id < t.nextID)
    && (forall i, j :: 0 <= i < j < |t.rows| ==> t.rows[i].id < t.rows[j].id)
  }

  /** Create: the new row gets the next key. */
  function Insert<T>(t: Table<T>, name: string, data: T): (r: Table<T>)
    ensures ValidTable(t) ==> ValidTable(r)
  {
    Table(t.rows + [Row(t.nextID, name, data)], t.nextID + 1)
  }

  /** A row still without its key. */
  datatype Entry<T> = Entry(name: string, data: T)

  /** The rows that inserting the entries in order creates. */
  ghost function Numbered<T>(xs: seq<Entry<T>>, first: nat): seq<Row<T>> {
    seq(|xs|, i requires 0 <= i < |xs| => Row(first + i, xs[i].name, xs[i].data))
  }

  /** A listing ordered by key, newest first. */
  function Reverse<T>(s: seq<T>): seq<T> {
    seq(|s|, i requires 0 <= i < |s| => s[|s| - 1 - i])
  }

  /** The key of the oldest row of each name. */
  function NameIndex<T>(rows: seq<Row<T>>): (m: map<string, nat>)
    ensures forall i :: 0 <= i < |rows| ==> rows[i].name in m
  {
    if rows == [] then map[] else NameIndex(rows[1..])[rows[0].name := rows[0].id]
  }

  ghost predicate HasID<T>(rows: seq<Row<T>>, id: nat) {
    exists i :: 0 <= i < |rows| && rows[i].id == id
  }

  ghost predicate HasName<T>(rows: seq<Row<T>>, name: string) {
    exists i :: 0 <= i < |rows| && rows[i].name == name
  }

  /** The row an index entry points at: the first one of that name. */
  ghost predicate FirstNamed<T>(rows: seq<Row<T>>, name: string, i: int) {
    && 0 <= i < |rows|
    && rows[i].name == name
    && forall j :: 0 <= j < i ==> rows[j].name != name
  }

  lemma {:induction false} NameIndexFinds<T>(rows: seq<Row<T>>, name: string) returns (i: int)
    requires name in NameIndex(rows)
    ensures FirstNamed(rows, name, i) && NameIndex(rows)[name] == rows[i].id
    decreases |rows|
  {
    if rows[0].name == name {
      i := 0;
    } else {
      var j := NameIndexFinds(rows[1..], name);
      i := j + 1;
      assert forall k :: 0 < k < i ==> rows[k] == rows[1..][k - 1];
    }
  }

  /** Appending a row adds its name to the index unless an older row already has that name. */
  lemma {:induction false} NameIndexAppend<T>(rows: seq<Row<T>>, r: Row<T>)
    ensures NameIndex(rows + [r])
         == if r.name in NameIndex(rows) then NameIndex(rows) else NameIndex(rows)[r.name := r.id]
    decreases |rows|
  {
    if rows == [] {
      assert rows + [r] == [r];
    } else {
      NameIndexAppend(rows[1..], r);
      assert (rows + [r])[1..] == rows[1..] + [r];
    }
  }

  lemma {:induction false} NameIndexGrows<T>(rows: seq<Row<T>>, more: seq<Row<T>>)
    requires rows <= more
    ensures NameIndex(rows).Keys <= NameIndex(more).Keys
  {
    forall n | n in NameIndex(rows)
      ensures n in NameIndex(more)
    {
      var i := NameIndexFinds(rows, n);
      assert more[i] == rows[i];
    }
  }

  /** The rows whose key is in `ids`, in listing order. */
  function WithIDs<T>(rows: seq<Row<T>>, ids: set<nat>): seq<Row<T>> {
    if rows == [] then []
    else if rows[0].id in ids then [rows[0]] + WithIDs(rows[1..], ids)
    else WithIDs(rows[1..], ids)
  }

  lemma {:induction false} WithIDsKeeps<T>(rows: seq<Row<T>>, ids: set<nat>, r: Row<T>)
    requires r in rows && r.id in ids
    ensures r in WithIDs(rows, ids)
    decreases |rows|
  {
    if r != rows[0] {
      WithIDsKeeps(rows[1..], ids, r);
    }
  }

  lemma {:induction false} WithIDsFinds<T>(rows: seq<Row<T>>, ids: set<nat>, j: nat) returns (i: nat)
    requires j < |WithIDs(rows, ids)|
    ensures i < |rows| && rows[i] == WithIDs(rows, ids)[j] && rows[i].id in ids
    decreases |rows|
  {
    if rows[0].id in ids && j == 0 {
      i := 0;
    } else {
      i := WithIDsFinds(rows[1..], ids, if rows[0].id in ids then j - 1 else j);
      i := i + 1;
    }
  }

  lemma {:induction false} WithIDsDistinct<T>(rows: seq<Row<T>>, ids: set<nat>)
    requires DistinctIDs(rows)
    ensures DistinctIDs(WithIDs(rows, ids))
    decreases |rows|
  {
    if rows != [] {
      WithIDsDistinct(rows[1..], ids);
      forall j | 0 <= j < |WithIDs(rows[1..], ids)|
        ensures WithIDs(rows[1..], ids)[j].id != rows[0].id
      {
        var i := WithIDsFinds(rows[1..], ids, j);
      }
    }
  }

  /** The name of each row by its key. */
  function RowNames<T>(rows: seq<Row<T>>): map<nat, string> {
    if rows == [] then map[]
    else RowNames(rows[..|rows| - 1])[rows[|rows| - 1].id := rows[|rows| - 1].name]
  }

  lemma {:induction false} RowNamesOf<T>(rows: seq<Row<T>>, i: nat)
    requires DistinctIDs(rows) && i < |rows|
    ensures rows[i].id in RowNames(rows) && RowNames(rows)[rows[i].id] == rows[i].name
    decreases |rows|
  {
    var n := |rows| - 1;
    if i < n {
      RowNamesOf(rows[..n], i);
      assert rows[..n][i] == rows[i];
    }
  }

  lemma {:induction false} RowNamesFinds<T>(rows: seq<Row<T>>, id: nat) returns (i: nat)
    requires id in RowNames(rows)
    ensures i < |rows| && rows[i].id == id && RowNames(rows)[id] == rows[i].name
    decreases |rows|
  {
    var n := |rows| - 1;
    if rows[n].id == id {
      i := n;
    } else {
      i := RowNamesFinds(rows[..n], id);
    }
  }

  /** The renaming that sends the i-th listed row to key `first` + i. */
  function Positions<T>(rows: seq<Row<T>>, first: nat): (m: map<nat, nat>)
    ensures forall i :: 0 <= i < |rows| ==> rows[i].id in m
  {
    if rows == [] then map[]
    else
      var n := |rows| - 1;
      Positions(rows[..n], first)[rows[n].id := first + n]
  }

  lemma {:induction false} PositionsFinds<T>(rows: seq<Row<T>>, first: nat, id: nat) returns (i: nat)
    requires id in Positions(rows, first)
    ensures i < |rows| && rows[i].id == id
    decreases |rows|
  {
    var n := |rows| - 1;
    if rows[n].id == id {
      i := n;
    } else {
      i := PositionsFinds(rows[..n], first, id);
    }
  }

  ghost predicate DistinctIDs<T>(rows: seq<Row<T>>) {
    forall i, j :: 0 <= i < j < |rows| ==> rows[i].id != rows[j].id
  }

  lemma {:induction false} PositionsOf<T>(rows: seq<Row<T>>, first: nat, i: nat)
    requires DistinctIDs(rows) && i < |rows|
    ensures Positions(rows, first)[rows[i].id] == first + i
    decreases |rows|
  {
    var n := |rows| - 1;
    if i < n {
      PositionsOf(rows[..n], first, i);
      assert rows[..n][i] == rows[i];
    }
  }

  /** A listing of a table by its unique key: every key once, in some order. */
  ghost predicate Lists<K(!new)>(listing: seq<K>, keys: set<K>) {
    && (forall i :: 0 <= i < |listing| ==> listing[i] in keys)
    && (forall k :: k in keys ==> k in listing)
    && (forall i, j :: 0 <= i < j < |listing| ==> listing[i] != listing[j])
  }

  /** The stored keys of a table, in some order and each once. */
  method ListKeys<K(==, !new), V>(table: map<K, V>) returns (listing: seq<K>)
    ensures Lists(listing, table.Keys)
  {
    listing := [];
    var rest := table.Keys;
    while rest != {}
      invariant rest <= table.Keys
      invariant forall k :: k in table.Keys ==> (k in listing) == (k !in rest)
      invariant forall i :: 0 <= i < |listing| ==> listing[i] in table.Keys && listing[i] !in rest
      invariant forall i, j :: 0 <= i < j < |listing| ==> listing[i] != listing[j]
      decreases |rest|
    {
      var k :| k in rest;
      listing := listing + [k];
      rest := rest - {k};
    }
  }

  // ----- Sequences -----

  function Map<T, U>(f: T -> U, xs: seq<T>): seq<U> {
    seq(|xs|, i requires 0 <= i < |xs| => f(xs[i]))
  }

  ghost predicate Distinct<T>(xs: seq<T>) {
    forall i, j :: 0 <= i < j < |xs| ==> xs[i] != xs[j]
  }
}
