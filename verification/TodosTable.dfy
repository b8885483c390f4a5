/**
 The `todos` table by its contract: rows under fresh row ids, a unique index on
 (idem_key, owner), a required title, and a query that returns at most `limit`
 rows. Every call may also fail, and a failed call changes nothing. An owner's
 projection is what the rows say of its todos, by idem_key.
 */
module TodosTable {
  import opened Wrappers
  import opened TodoItems

  const PAGE := 200

  datatype Row = Row(owner: string, idemKey: string, item: Item)

  type Rows = map<nat, Row>

  function RowsOf(rows: Rows, owner: string): set<nat> {
    set i | i in rows && rows[i].owner == owner
  }

  function Others(rows: Rows, owner: string): Rows {
    map i | i in rows && rows[i].owner != owner :: rows[i]
  }

  ghost predicate NoDup(rows: Rows) {
    forall i, j :: i in rows && j in rows && rows[i].owner == rows[j].owner && rows[i].idemKey == rows[j].idemKey ==> i == j
  }

  predicate Holds(rows: Rows, i: nat, owner: string, key: string) {
    i in rows && rows[i].owner == owner && rows[i].idemKey == key
  }

  function KeysOf(rows: Rows, owner: string): set<string> {
    set i | i in RowsOf(rows, owner) :: rows[i].idemKey
  }

  ghost function TheRow(rows: Rows, owner: string, key: string): (i: nat)
    requires key in KeysOf(rows, owner)
    ensures Holds(rows, i, owner, key)
  {
    var i :| i in RowsOf(rows, owner) && rows[i].idemKey == key;
    assert Holds(rows, i, owner, key);
    i
  }

  /** The owner's todos as the table records them. */
  ghost function Projection(rows: Rows, owner: string): map<string, Item> {
    map k | k in KeysOf(rows, owner) :: rows[TheRow(rows, owner, k)].item
  }

  function Restrict(rows: Rows, page: set<nat>): Rows {
    map i | i in rows && i in page :: rows[i]
  }

  /** An answer of the limited query: some of the owner's rows, all of them if they fit. */
  predicate IsPage(rows: Rows, owner: string, page: set<nat>) {
    && page <= RowsOf(rows, owner)
    && |page| == if |RowsOf(rows, owner)| <= PAGE then |RowsOf(rows, owner)| else PAGE
  }

  lemma SubsetOfSameSize<T>(a: set<T>, b: set<T>)
    requires a <= b && |a| == |b|
    ensures a == b
  {
    if a != b {
      var x :| x in b && x !in a;
      assert |b - {x}| == |b| - 1;
      SubsetSize(a, b - {x});
    }
  }

  lemma {:induction false} SubsetSize<T>(a: set<T>, b: set<T>)
    requires a <= b
    ensures |a| <= |b|
  {
    if a != {} {
      var x :| x in a;
      SubsetSize(a - {x}, b - {x});
    }
  }

  lemma FittingPage(rows: Rows, owner: string, page: set<nat>)
    requires IsPage(rows, owner, page) && |RowsOf(rows, owner)| <= PAGE
    ensures page == RowsOf(rows, owner)
  {
    SubsetOfSameSize(page, RowsOf(rows, owner));
  }

  /** One todo per row: an owner's todos are as many as the owner's rows. */
  lemma {:induction false} ProjectedSize(rows: Rows, owner: string, page: set<nat>)
    requires NoDup(rows) && page <= RowsOf(rows, owner)
    ensures |KeysOf(Restrict(rows, page), owner)| == |page|
    decreases page
  {
    if page != {} {
      var i :| i in page;
      ProjectedSize(rows, owner, page - {i});
      var a, b := Restrict(rows, page), Restrict(rows, page - {i});
      assert RowsOf(a, owner) == RowsOf(b, owner) + {i};
      assert KeysOf(a, owner) == KeysOf(b, owner) + {rows[i].idemKey};
      if rows[i].idemKey in KeysOf(b, owner) {
        var j := TheRow(b, owner, rows[i].idemKey);
      }
    }
  }

  lemma SameMap<V>(p: map<string, V>, q: map<string, V>)
    requires forall k :: At(p, k) == At(q, k)
    ensures p == q
  {
    assert forall k :: k in p <==> At(p, k).Some?;
    assert forall k :: k in q <==> At(q, k).Some?;
  }

  /** The owner's todo `key` is what the owner's row of that key holds. */
  lemma ProjectionAt(rows: Rows, owner: string, key: string, i: nat)
    requires NoDup(rows) && Holds(rows, i, owner, key)
    ensures At(Projection(rows, owner), key) == Some(rows[i].item)
  {
    assert i in RowsOf(rows, owner);
  }

  lemma ProjectionWithout(rows: Rows, owner: string, key: string)
    requires forall i :: !Holds(rows, i, owner, key)
    ensures At(Projection(rows, owner), key) == None
  {
    if key in KeysOf(rows, owner) { var i := TheRow(rows, owner, key); }
  }

  lemma SavedOthers(was: Rows, rows: Rows, at: nat, row: Row)
    requires rows == was[at := row] && (at in was ==> was[at].owner == row.owner)
    ensures Others(rows, row.owner) == Others(was, row.owner)
  {
  }

  lemma SavedAt(was: Rows, rows: Rows, at: nat, row: Row, k: string)
    requires NoDup(was) && NoDup(rows)
    requires rows == was[at := row] && (at in was ==> was[at].owner == row.owner && was[at].idemKey == row.idemKey)
    ensures At(Projection(rows, row.owner), k) == if k == row.idemKey then Some(row.item) else At(Projection(was, row.owner), k)
  {
    if k == row.idemKey {
      ProjectionAt(rows, row.owner, k, at);
    } else if i :| Holds(was, i, row.owner, k) {
      ProjectionAt(was, row.owner, k, i);
      ProjectionAt(rows, row.owner, k, i);
    } else {
      ProjectionWithout(was, row.owner, k);
      forall i ensures !Holds(rows, i, row.owner, k) {
        assert !Holds(was, i, row.owner, k);
      }
      ProjectionWithout(rows, row.owner, k);
    }
  }

  /** Saving a row, new or old, sets the owner's todo of that key and nothing else. */
  lemma SavedProjection(was: Rows, rows: Rows, at: nat, row: Row)
    requires NoDup(was) && NoDup(rows)
    requires rows == was[at := row] && (at in was ==> was[at].owner == row.owner && was[at].idemKey == row.idemKey)
    ensures Projection(rows, row.owner) == Projection(was, row.owner)[row.idemKey := row.item]
  {
    var m := Projection(was, row.owner);
    forall k ensures At(Projection(rows, row.owner), k) == At(m[row.idemKey := row.item], k) {
      SavedAt(was, rows, at, row, k);
    }
    SameMap(Projection(rows, row.owner), m[row.idemKey := row.item]);
  }

  class Table {
    var rows: Rows
    var nextRow: nat

    ghost predicate Valid()
      reads this
    {
      NoDup(rows) && forall i :: i in rows ==> i < nextRow
    }

    constructor ()
      ensures Valid() && rows == map[]
    {
      rows, nextRow := map[], 0;
    }

    /** FindFirstRecordByFilter on (idem_key, owner); a failed query reads as not found. */
    method FindFirst(owner: string, key: string) returns (r: Option<nat>)
      ensures r.Some? ==> r.value in rows && rows[r.value].owner == owner && rows[r.value].idemKey == key
    {
      r := None;
      var hits := set i | i in rows && rows[i].owner == owner && rows[i].idemKey == key;
      if hits != {} {
        var i :| i in hits;
        if * { r := Some(i); }
      }
    }

    /** FindRecordsByFilter on the owner, with the page limit. */
    method FindByOwner(owner: string) returns (r: Option<set<nat>>)
      ensures r.Some? ==> IsPage(rows, owner, r.value)
    {
      var all := set i | i in rows && rows[i].owner == owner;
      if * { return None; }
      var page := all;
      while |page| > PAGE
        invariant page <= all
        invariant |page| == |all| || PAGE <= |page|
        decreases |page|
      {
        var i :| i in page;
        page := page - {i};
      }
      assert all == RowsOf(rows, owner);
      SubsetSize(page, all);
      return Some(page);
    }

    /** Save: overwrites the row `at`, or makes a new one. */
    method Save(at: Option<nat>, row: Row) returns (ok: bool)
      requires Valid()
      requires at.Some? ==> at.value in rows && rows[at.value].owner == row.owner && rows[at.value].idemKey == row.idemKey
      modifies this
      ensures Valid()
      ensures !ok ==> rows == old(rows)
      ensures ok ==> row.item.title != ""
      ensures ok ==> Others(rows, row.owner) == old(Others(rows, row.owner))
      ensures ok ==> Projection(rows, row.owner) == old(Projection(rows, row.owner)[row.idemKey := row.item])
      ensures forall i :: i in old(rows) ==> i in rows && rows[i].owner == old(rows[i].owner) && rows[i].idemKey == old(rows[i].idemKey)
    {
      ok := false;
      if row.item.title == "" { return; }
      if * { return; }
      match at {
        case Some(i) =>
          SavedOthers(rows, rows[i := row], i, row);
          SavedProjection(rows, rows[i := row], i, row);
          rows := rows[i := row];
          ok := true;
        case None =>
          var clash := set i | i in rows && rows[i].owner == row.owner && rows[i].idemKey == row.idemKey;
          if clash == {} {
            assert forall i :: i in rows ==> i !in clash;
            SavedOthers(rows, rows[nextRow := row], nextRow, row);
            SavedProjection(rows, rows[nextRow := row], nextRow, row);
            rows := rows[nextRow := row];
            nextRow := nextRow + 1;
            ok := true;
          }
      }
    }

    method Delete(at: nat) returns (ok: bool)
      requires Valid() && at in rows
      modifies this
      ensures Valid()
      ensures rows == if ok then old(rows) - {at} else old(rows)
    {
      ok := false;
      if * { return; }
      rows := rows - {at};
      ok := true;
    }
  }
}
