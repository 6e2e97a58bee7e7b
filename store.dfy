/**
 * A database table as the repositories see it: rows keyed by their
 * primary key, the physical order in which they were persisted, and the
 * next value of the id sequence.
 */
module Store {
  import opened Lang

  predicate Distinct(s: seq<int>) {
    forall i, j :: 0 <= i < j < |s| ==> s[i] != s[j]
  }

  lemma DistinctTail(s: seq<int>)
    requires s != []
    ensures Distinct(s) ==> Distinct(s[1..]) && s[0] !in s[1..]
  {
    if Distinct(s) {
      forall i, j | 0 <= i < j < |s[1..]| ensures s[1..][i] != s[1..][j] {
        assert s[1..][i] == s[i + 1] && s[1..][j] == s[j + 1];
      }
      forall i | 0 <= i < |s[1..]| ensures s[1..][i] != s[0] {
        assert s[1..][i] == s[i + 1];
      }
    }
  }

  /** `s` without the element `k`, order kept. */
  function Without(s: seq<int>, k: int): (r: seq<int>)
    ensures forall x :: x in r <==> x in s && x != k
    ensures Distinct(s) ==> Distinct(r)
  {
    if s == [] then []
    else
      var rest := Without(s[1..], k);
      DistinctTail(s);
      if s[0] == k then rest else [s[0]] + rest
  }

  /** The rows listed in the order given by `order`. */
  function RowsOf<T>(rows: map<int, T>, order: seq<int>): (r: seq<T>)
    requires forall i :: 0 <= i < |order| ==> order[i] in rows
    ensures |r| == |order|
    ensures forall i :: 0 <= i < |order| ==> r[i] == rows[order[i]]
  {
    seq(|order|, i requires 0 <= i < |order| => rows[order[i]])
  }

  class Table<T(!new)> {
    var rows: map<int, T>
    var order: seq<int>
    var nextId: int

    /** Every key appears once in the physical order, and every key was
        drawn from the sequence, which starts at 1. */
    ghost predicate Valid()
      reads this
    {
      && Distinct(order)
      && (forall k :: k in rows <==> k in order)
      && (forall k :: k in rows ==> 1 <= k < nextId)
      && 1 <= nextId
    }

    constructor ()
      ensures Valid()
      ensures rows == map[] && order == [] && nextId == 1
    {
      rows := map[];
      order := [];
      nextId := 1;
    }

    /** The table's rows in physical (insertion) order. */
    function Contents(): (r: seq<T>)
      requires Valid()
      reads this
      ensures |r| == |order|
      ensures forall x :: x in r <==> exists k :: k in rows && rows[k] == x
    {
      assert forall i :: 0 <= i < |order| ==> order[i] in rows by {
        forall i | 0 <= i < |order| ensures order[i] in rows {
          assert forall k :: k in rows <==> k in order;
          assert order[i] in order ==> order[i] in rows;
        }
      }
      var r := RowsOf(rows, order);
      assert forall x :: x in r ==> exists k :: k in rows && rows[k] == x by {
        forall x | x in r ensures exists k :: k in rows && rows[k] == x {
          var i :| 0 <= i < |r| && r[i] == x;
          assert order[i] in rows;
        }
      }
      assert forall k :: k in rows ==> rows[k] in r by {
        forall k | k in rows ensures rows[k] in r {
          var i :| 0 <= i < |order| && order[i] == k;
          assert r[i] == rows[k];
        }
      }
      r
    }

    /** `findById`: the row with that key, if any. */
    function Find(k: int): (r: Option<T>)
      reads this
      ensures r.Some? <==> k in rows
      ensures r.Some? ==> r.value == rows[k]
    {
      if k in rows then Some(rows[k]) else None
    }

    /** Stores `x` under `k`, which is a known key (overwrite in place) or
        the sequence's next value (insert at the end, advance the sequence). */
    method Put(k: int, x: T)
      requires Valid()
      requires k in rows || k == nextId
      modifies this
      ensures Valid()
      ensures rows == old(rows)[k := x]
      ensures k in old(rows) ==> order == old(order) && nextId == old(nextId)
      ensures k !in old(rows) ==> order == old(order) + [k] && nextId == old(nextId) + 1
    {
      if k !in rows {
        order := order + [k];
        nextId := nextId + 1;
      }
      rows := rows[k := x];
    }

    /** `delete` / `deleteById`: an absent key is ignored. */
    method Remove(k: int)
      requires Valid()
      modifies this
      ensures Valid()
      ensures rows == old(rows) - {k}
      ensures order == Without(old(order), k)
      ensures nextId == old(nextId)
    {
      rows := rows - {k};
      order := Without(order, k);
    }
  }
}
