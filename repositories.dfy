/**
 * The repository queries over a table's rows, and the JPA `save`
 * semantics the services rely on.
 */
module Repositories {
  import opened Lang
  import opened Entities
  import opened Store

  // ---- ExpenseRepository / IncomeRepository: findAllByUserId ----

  /** `e.user.id = :userId`. A null parameter compares unknown in SQL and
      matches no row; a row without an owner matches nothing either. */
  predicate OwnedBy(t: Txn, userId: Option<int>) {
    userId.Some? && t.user.Some? && t.user.value.id == userId
  }

  /** `a` may come before `b` under `ORDER BY createDate DESC`. A null
      date is placed first, which is where PostgreSQL puts NULLs in a
      descending order. */
  predicate NewerOrSame(a: Txn, b: Txn) {
    a.createDate.None? || (b.createDate.Some? && a.createDate.value >= b.createDate.value)
  }

  predicate SortedByDateDesc(s: seq<Txn>) {
    forall i, j :: 0 <= i < j < |s| ==> NewerOrSame(s[i], s[j])
  }

  /** Inserts `x` before the first row it is newer than or as new as. */
  function InsertByDate(x: Txn, s: seq<Txn>): seq<Txn> {
    if s == [] || NewerOrSame(x, s[0]) then [x] + s
    else [s[0]] + InsertByDate(x, s[1..])
  }

  lemma {:induction false} InsertByDateKeepsRows(x: Txn, s: seq<Txn>)
    ensures multiset(InsertByDate(x, s)) == multiset(s) + multiset{x}
  {
    if s == [] || NewerOrSame(x, s[0]) {
    } else {
      InsertByDateKeepsRows(x, s[1..]);
      assert s == [s[0]] + s[1..];
    }
  }

  /** A row that may precede the head of a sorted list may precede all of it. */
  lemma ConsSorted(a: Txn, s: seq<Txn>)
    requires SortedByDateDesc(s)
    requires forall j :: 0 <= j < |s| ==> NewerOrSame(a, s[j])
    ensures SortedByDateDesc([a] + s)
  {
    forall i, j | 0 <= i < j < |[a] + s| ensures NewerOrSame(([a] + s)[i], ([a] + s)[j]) {
      if i > 0 {
        assert ([a] + s)[i] == s[i - 1] && ([a] + s)[j] == s[j - 1];
      } else {
        assert ([a] + s)[j] == s[j - 1];
      }
    }
  }

  lemma {:induction false} InsertByDateSorted(x: Txn, s: seq<Txn>)
    requires SortedByDateDesc(s)
    ensures SortedByDateDesc(InsertByDate(x, s))
  {
    if s == [] {
    } else if NewerOrSame(x, s[0]) {
      ConsSorted(x, s);
    } else {
      var tail := s[1..];
      assert SortedByDateDesc(tail) by {
        forall i, j | 0 <= i < j < |tail| ensures NewerOrSame(tail[i], tail[j]) {
          assert tail[i] == s[i + 1] && tail[j] == s[j + 1];
        }
      }
      InsertByDateSorted(x, tail);
      InsertByDateKeepsRows(x, tail);
      var rest := InsertByDate(x, tail);
      forall j | 0 <= j < |rest| ensures NewerOrSame(s[0], rest[j]) {
        assert rest[j] in multiset(rest);
        if rest[j] != x {
          assert rest[j] in multiset(tail);
          var i :| 0 <= i < |tail| && tail[i] == rest[j];
          assert s[i + 1] == rest[j];
        }
      }
      ConsSorted(s[0], rest);
    }
  }

  /** Insertion sort; rows with equal dates keep their physical order. */
  function SortByDate(s: seq<Txn>): seq<Txn> {
    if s == [] then [] else InsertByDate(s[0], SortByDate(s[1..]))
  }

  lemma {:induction false} SortByDateCorrect(s: seq<Txn>)
    ensures SortedByDateDesc(SortByDate(s))
    ensures multiset(SortByDate(s)) == multiset(s)
  {
    if s != [] {
      SortByDateCorrect(s[1..]);
      InsertByDateSorted(s[0], SortByDate(s[1..]));
      InsertByDateKeepsRows(s[0], SortByDate(s[1..]));
      assert s == [s[0]] + s[1..];
    }
  }

  /** `findAllByUserId`: the user's rows, newest first. */
  function FindAllByUserId(rows: seq<Txn>, userId: Option<int>): (r: seq<Txn>)
    ensures SortedByDateDesc(r)
    ensures multiset(r) == multiset(Filter(rows, t => OwnedBy(t, userId)))
    ensures forall t :: t in r <==> t in rows && OwnedBy(t, userId)
  {
    var owned := Filter(rows, t => OwnedBy(t, userId));
    SortByDateCorrect(owned);
    var r := SortByDate(owned);
    assert forall t :: t in r <==> t in owned by {
      forall t ensures t in r <==> t in owned {
        assert t in r <==> t in multiset(r);
      }
    }
    r
  }

  /** Every one of the user's rows is returned, as often as it is stored. */
  lemma {:induction false} FindAllReturnsEveryOwnedRow(rows: seq<Txn>, userId: Option<int>, t: Txn)
    requires OwnedBy(t, userId)
    ensures multiset(FindAllByUserId(rows, userId))[t] == multiset(rows)[t]
  {
  }

  /** A user who owns nothing, or a null id, gets the empty list. */
  lemma FindAllEmptyWhenNothingOwned(rows: seq<Txn>, userId: Option<int>)
    requires forall i :: 0 <= i < |rows| ==> !OwnedBy(rows[i], userId)
    ensures FindAllByUserId(rows, userId) == []
  {
  }

  // ---- UserRepository: findByUsername ----

  /** `i.username = :username`: the earliest-persisted user with exactly
      that username. A null parameter matches no row. */
  function FindByUsername(rows: seq<UserEntity>, username: Option<string>): (r: Option<UserEntity>)
    ensures r.Some? <==> username.Some? && exists i :: 0 <= i < |rows| && rows[i].username == username
    ensures r.Some? ==> exists i :: 0 <= i < |rows| && rows[i] == r.value && r.value.username == username
                                   && forall j :: 0 <= j < i ==> rows[j].username != username
  {
    if rows == [] then None
    else if username.Some? && rows[0].username == username then Some(rows[0])
    else
      var r := FindByUsername(rows[1..], username);
      assert forall i :: 1 <= i < |rows| ==> rows[i] == rows[1..][i - 1];
      if r.Some? then
        var i :| 0 <= i < |rows[1..]| && rows[1..][i] == r.value && r.value.username == username
                 && forall j :: 0 <= j < i ==> rows[1..][j].username != username;
        assert rows[i + 1] == r.value;
        assert forall j :: 0 <= j < i + 1 ==> rows[j].username != username by {
          forall j | 0 <= j < i + 1 ensures rows[j].username != username {
            if j > 0 { assert rows[j] == rows[1..][j - 1]; }
          }
        }
        r
      else
        r
  }

  /** Matching looks at the username alone: any other change to a row
      leaves the result alone as long as its username stays. */
  lemma {:induction false} FindByUsernameIgnoresOtherFields(rows: seq<UserEntity>, username: Option<string>, i: nat, u: UserEntity)
    requires i < |rows| && u.username == rows[i].username
    ensures FindByUsername(rows[i := u], username).Some? == FindByUsername(rows, username).Some?
  {
    var rows' := rows[i := u];
    assert forall j :: 0 <= j < |rows| ==> rows'[j].username == rows[j].username;
    if FindByUsername(rows, username).Some? {
      var j :| 0 <= j < |rows| && rows[j].username == username;
      assert rows'[j].username == username;
    }
    if FindByUsername(rows', username).Some? {
      var j :| 0 <= j < |rows'| && rows'[j].username == username;
      assert rows[j].username == username;
    }
  }

  /** The derived query `existsByUsername`: a null argument becomes
      `IS NULL`, so it matches the rows whose username is null. */
  function ExistsByUsername(rows: seq<UserEntity>, username: Option<string>): (b: bool)
    ensures b <==> exists i :: 0 <= i < |rows| && rows[i].username == username
  {
    if rows == [] then false
    else
      assert forall i :: 1 <= i < |rows| ==> rows[i] == rows[1..][i - 1];
      rows[0].username == username || ExistsByUsername(rows[1..], username)
  }

  /** For a non-null username the two lookups agree. */
  lemma ExistsAgreesWithFind(rows: seq<UserEntity>, username: string)
    ensures ExistsByUsername(rows, Some(username)) <==> FindByUsername(rows, Some(username)).Some?
  {
  }

  /** For a null username they do not: a row with a null username makes
      the derived query true while the JPQL query finds nothing. */
  lemma ExistsAndFindDisagreeOnNull(u: UserEntity)
    requires u.username.None?
    ensures ExistsByUsername([u], None)
    ensures FindByUsername([u], None).None?
  {
    assert [u][0].username == None;
  }

  // ---- save ----

  /** Each stored row carries its own key as its id. */
  predicate TxnIdsConsistent(rows: map<int, Txn>) {
    forall k :: k in rows ==> rows[k].id == Some(k)
  }

  predicate UserIdsConsistent(rows: map<int, UserEntity>) {
    forall k :: k in rows ==> rows[k].id == Some(k)
  }

  /** The key `save` writes under: the entity's own id when a row has it
      (merge), otherwise the next value of the sequence (insert; a given
      but unknown id is replaced by the generated one). */
  function SaveKey(keys: set<int>, nextId: int, id: Option<int>): int {
    if id.Some? && id.value in keys then id.value else nextId
  }

  method SaveTxn(table: Table<Txn>, t: Txn) returns (saved: Txn)
    requires table.Valid() && TxnIdsConsistent(table.rows)
    modifies table
    ensures table.Valid() && TxnIdsConsistent(table.rows)
    ensures saved == t.(id := Some(SaveKey(old(table.rows).Keys, old(table.nextId), t.id)))
    ensures table.rows == old(table.rows)[saved.id.value := saved]
  {
    var k := SaveKey(table.rows.Keys, table.nextId, t.id);
    saved := t.(id := Some(k));
    table.Put(k, saved);
  }

  method SaveUser(table: Table<UserEntity>, u: UserEntity) returns (saved: UserEntity)
    requires table.Valid() && UserIdsConsistent(table.rows)
    modifies table
    ensures table.Valid() && UserIdsConsistent(table.rows)
    ensures saved == u.(id := Some(SaveKey(old(table.rows).Keys, old(table.nextId), u.id)))
    ensures table.rows == old(table.rows)[saved.id.value := saved]
  {
    var k := SaveKey(table.rows.Keys, table.nextId, u.id);
    saved := u.(id := Some(k));
    table.Put(k, saved);
  }
}
