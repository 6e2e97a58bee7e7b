/**
 * `ExpenseServiceImpl` and `IncomeServiceImpl`. The two classes differ
 * only in the noun of their messages, so one class with a `kind` models
 * both. The entity the caller passes and the row loaded from the
 * repository are values; their setters become record updates.
 */
module Transactions {
  import opened Lang
  import opened Errors
  import opened Entities
  import opened Store
  import opened Repositories
  import opened Security

  datatype Kind = Expense | Income

  function Noun(kind: Kind): string {
    match kind
    case Expense => "Expense"
    case Income => "Income"
  }

  /** The not-found message, verbatim: there is no space before "is". */
  function NotFoundMessage(kind: Kind, id: int): string {
    Noun(kind) + " with id: " + IntToString(id) + "is not found!"
  }

  const RecordAccessDenied: string := "Access to this record is not allowed for current user"

  /** The private `checkAccess(row)`: the current user is read first (line
      72), then `row.getUser().getId().equals(currentUser.getId())`, which
      dereferences a null owner, a null owner id and a null current user. */
  function CheckOwner(row: Txn, current: Result<Option<UserEntity>>): (o: Outcome)
    ensures o.Pass? <==> && current.Ok? && current.value.Some?
                         && row.user.Some? && row.user.value.id.Some?
                         && row.user.value.id == current.value.value.id
    ensures current.Err? ==> o == Fail(current.failure)
    ensures current.Ok? && o.Fail? ==> o.failure in {NullPointer, AccessDenied(RecordAccessDenied)}
  {
    match current
    case Err(f) => Fail(f)
    case Ok(cur) =>
      if row.user.None? || row.user.value.id.None? || cur.None? then Fail(NullPointer)
      else if row.user.value.id == cur.value.id then Pass
      else Fail(AccessDenied(RecordAccessDenied))
  }

  /** What `update` writes: amount, category and createDate taken from
      the new entity as they are, nulls included; id, description and
      owner kept. */
  function Overwrite(row: Txn, newer: Txn): (u: Txn)
    ensures u.amount == newer.amount && u.category == newer.category && u.createDate == newer.createDate
    ensures u.id == row.id && u.description == row.description && u.user == row.user
  {
    row.(amount := newer.amount, category := newer.category, createDate := newer.createDate)
  }

  /** Overwriting with the same entity twice is overwriting once, and
      overwriting with an entity that carries the row's own three values
      changes nothing. */
  lemma OverwriteIdempotent(row: Txn, newer: Txn)
    ensures Overwrite(Overwrite(row, newer), newer) == Overwrite(row, newer)
    ensures Overwrite(row, row.(id := newer.id, description := newer.description, user := newer.user)) == row
  {
  }

  class TransactionService {
    const kind: Kind
    const table: Table<Txn>
    const holder: SecurityContextHolder

    ghost predicate Valid()
      reads this, table
    {
      table.Valid() && TxnIdsConsistent(table.rows)
    }

    constructor (kind: Kind, table: Table<Txn>, holder: SecurityContextHolder)
      requires table.Valid() && TxnIdsConsistent(table.rows)
      ensures this.kind == kind && this.table == table && this.holder == holder
      ensures Valid()
    {
      this.kind := kind;
      this.table := table;
      this.holder := holder;
    }

    /** `get(id)`: the stored row, or EntityNotFound. The current user is
        not consulted: any caller may read any row. */
    method Get(id: int) returns (r: Result<Txn>)
      requires Valid()
      ensures id in table.rows ==> r == Ok(table.rows[id])
      ensures id !in table.rows ==> r == Err(EntityNotFound(NotFoundMessage(kind, id)))
    {
      var found := table.Find(id);
      if found.None? {
        return Err(EntityNotFound(NotFoundMessage(kind, id)));
      }
      r := Ok(found.value);
    }

    /** `create(t)`: the owner becomes the current user, whatever `t`
        carried, then the row is saved. No authentication, or a principal
        that is not a user, fails before anything is saved; a null
        principal casts to null and the row is saved without an owner. */
    method Create(t: Txn) returns (r: Result<Txn>)
      requires Valid()
      modifies table
      ensures Valid()
      ensures UserFromContext(holder.authentication).Err? ==>
                r == Err(UserFromContext(holder.authentication).failure) && table.rows == old(table.rows)
      ensures UserFromContext(holder.authentication).Ok? ==>
                && r.Ok?
                && r.value == t.(user := UserFromContext(holder.authentication).value,
                                 id := Some(SaveKey(old(table.rows).Keys, old(table.nextId), t.id)))
                && table.rows == old(table.rows)[r.value.id.value := r.value]
    {
      var user := UserFromContext(holder.authentication);
      if user.Err? {
        return Err(user.failure);
      }
      var owned := t.(user := user.value);
      var saved := SaveTxn(table, owned);
      r := Ok(saved);
    }

    /** `delete(id)`: EntityNotFound for an unknown id; otherwise exactly
        that row goes. The current user is not consulted. */
    method Delete(id: int) returns (o: Outcome)
      requires Valid()
      modifies table
      ensures Valid()
      ensures id !in old(table.rows) ==> o == Fail(EntityNotFound(NotFoundMessage(kind, id))) && table.rows == old(table.rows)
      ensures id in old(table.rows) ==> o == Pass && table.rows == old(table.rows) - {id}
    {
      var found := table.Find(id);
      if found.None? {
        return Fail(EntityNotFound(NotFoundMessage(kind, id)));
      }
      // `delete(entity)` deletes by the entity's id, which is its key.
      table.Remove(found.value.id.value);
      o := Pass;
    }

    /** `update(id, newer)`: existence first, then ownership, then the
        overwrite of three fields and the save. A failure changes nothing. */
    method Update(id: int, newer: Txn) returns (r: Result<Txn>)
      requires Valid()
      modifies table
      ensures Valid()
      ensures id !in old(table.rows) ==> r == Err(EntityNotFound(NotFoundMessage(kind, id)))
      ensures id in old(table.rows) ==>
                var access := CheckOwner(old(table.rows)[id], UserFromContext(holder.authentication));
                && (access.Fail? ==> r == Err(access.failure))
                && (access.Pass? ==> r == Ok(Overwrite(old(table.rows)[id], newer)))
      ensures r.Err? ==> table.rows == old(table.rows)
      ensures r.Ok? ==> table.rows == old(table.rows)[id := r.value]
    {
      var found := table.Find(id);
      if found.None? {
        return Err(EntityNotFound(NotFoundMessage(kind, id)));
      }
      var oldRow := found.value;
      var access := CheckOwner(oldRow, UserFromContext(holder.authentication));
      if access.Fail? {
        return Err(access.failure);
      }
      oldRow := oldRow.(amount := newer.amount);
      oldRow := oldRow.(category := newer.category);
      oldRow := oldRow.(createDate := newer.createDate);
      var saved := SaveTxn(table, oldRow);
      r := Ok(saved);
    }

    /** `getAllUserExpenses` / `getAllUserIncomes`: the repository's
        `findAllByUserId` for the current user's id. */
    method GetAll() returns (r: Result<seq<Txn>>)
      requires Valid()
      ensures CurrentUserId(holder.authentication).Err? ==> r == Err(CurrentUserId(holder.authentication).failure)
      ensures CurrentUserId(holder.authentication).Ok? ==>
                r == Ok(FindAllByUserId(table.Contents(), CurrentUserId(holder.authentication).value))
    {
      var user := UserFromContext(holder.authentication);
      if user.Err? {
        return Err(user.failure);
      }
      if user.value.None? {
        return Err(NullPointer);
      }
      r := Ok(FindAllByUserId(table.Contents(), user.value.value.id));
    }
  }

  /** Ownership is checked against the row as stored: a row someone else
      owns can be neither updated nor changed by the attempt. */
  lemma ForeignRowIsDenied(row: Txn, me: UserEntity, owner: UserEntity)
    requires row.user == Some(owner) && owner.id.Some? && owner.id != me.id
    ensures CheckOwner(row, Ok(Some(me))) == Fail(AccessDenied(RecordAccessDenied))
  {
  }

  /** The owner passes the check. */
  lemma OwnRowIsAllowed(row: Txn, me: UserEntity)
    requires row.user.Some? && row.user.value.id == me.id && me.id.Some?
    ensures CheckOwner(row, Ok(Some(me))) == Pass
  {
  }
}
