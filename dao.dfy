// UserDaoImpl: the six repository operations over one table. Each write runs
// in its own transaction, which either commits as a whole or is rolled back,
// and in that case the DAO raises. Whether the store raises during a call
// (lost connection, constraint violation, failed commit) is decided outside
// the model and arrives as the parameter `fault`.

module Dao {
  import opened Entity
  import opened Errors
  import opened Text
  import opened Rows

  /** One invocation of the write path, whatever its outcome. */
  datatype WriteCall = SaveCall(user: User) | UpdateCall(user: User) | DeleteCall(id: int)

  /**
   * What `findById` answers over `rows`: an error exactly on a store fault,
   * otherwise the row under `id` if there is one and empty if not.
   */
  ghost predicate FoundById(rows: map<int, User>, id: int, fault: bool, r: Result<Option<User>>) {
    && (r.Success? <==> !fault)
    && (r.Failure? ==> r.error == StoreFailure(FindByIdOp))
    && (r.Success? ==> (r.value.Some? <==> id in rows))
    && (r.Success? && r.value.Some? ==> r.value.value == rows[id] && r.value.value.id == Some(id))
  }

  /**
   * What `findAll` answers over `rows`: an error exactly on a store fault,
   * otherwise every row once and nothing else.
   */
  ghost predicate ListedAll(rows: map<int, User>, fault: bool, r: Result<seq<User>>) {
    && (r.Success? <==> !fault)
    && (r.Failure? ==> r.error == StoreFailure(FindAllOp))
    && (r.Success? ==> |r.value| == |rows|)
    && (r.Success? ==> forall u :: u in r.value <==> u in rows.Values)
    && (r.Success? ==> forall i, j :: 0 <= i < j < |r.value| ==> r.value[i] != r.value[j])
  }

  /**
   * What `findByEmail` answers over `rows`: no match is empty, one match is
   * that row, and a store fault or two or more matches are an error.
   */
  ghost predicate FoundByEmail(rows: map<int, User>, email: string, fault: bool, r: Result<Option<User>>) {
    && (fault ==> r == Failure(StoreFailure(FindByEmailOp)))
    && (!fault && EmailMatches(rows, email) == {} ==> r == Success(None))
    && (!fault && |EmailMatches(rows, email)| == 1 ==> r.Success? && r.value.Some?)
    && (!fault && |EmailMatches(rows, email)| > 1 ==> r == Failure(StoreFailure(FindByEmailOp)))
    && (r.Success? && r.value.Some? ==>
          && r.value.value.id.Some?
          && EmailMatches(rows, email) == {r.value.value.id.value}
          && rows[r.value.value.id.value] == r.value.value
          && r.value.value.email == Normalize(email))
  }

  class UserDaoImpl {
    /** The committed rows of the users table, by primary key. */
    var rows: map<int, User>
    /** The next value of the store's id generator. */
    var nextId: int
    /** Every call of save, update and delete so far, in order. */
    ghost var writes: seq<WriteCall>

    ghost predicate Valid()
      reads this
    {
      && nextId >= 1
      && Keyed(rows)
      && (forall k :: k in rows ==> 1 <= k < nextId)
    }

    /** A DAO over an empty table. */
    constructor ()
      ensures Valid()
      ensures rows == map[] && nextId == 1 && writes == []
    {
      rows := map[];
      nextId := 1;
      writes := [];
    }

    /**
     * `save`: persist the user under a fresh id and hand back the user with
     * that id. A user that already carries an id is refused by the store.
     */
    method Save(user: User, fault: bool) returns (r: Result<User>)
      requires Valid()
      modifies this
      ensures Valid()
      ensures writes == old(writes) + [SaveCall(user)]
      ensures r.Success? <==> !fault && user.id.None?
      ensures r.Success? ==>
        && old(nextId) !in old(rows)
        && r.value == user.(id := Some(old(nextId)))
        && rows == old(rows)[old(nextId) := r.value]
        && nextId == old(nextId) + 1
      ensures r.Failure? ==>
        && r.error == StoreFailure(SaveOp)
        && rows == old(rows) && nextId == old(nextId)
    {
      writes := writes + [SaveCall(user)];
      if fault || user.id.Some? {
        // the transaction is rolled back: nothing was committed
        r := Failure(StoreFailure(SaveOp));
        return;
      }
      var saved := user.(id := Some(nextId));
      rows := rows[nextId := saved];
      nextId := nextId + 1;
      r := Success(saved);
    }

    /** `findById`: the row with that key, or nothing; a missing row is not an error. */
    method FindById(id: int, fault: bool) returns (r: Result<Option<User>>)
      requires Valid()
      ensures FoundById(rows, id, fault, r)
    {
      if fault {
        r := Failure(StoreFailure(FindByIdOp));
      } else if id in rows {
        r := Success(Some(rows[id]));
      } else {
        r := Success(None);
      }
    }

    /** `findAll`: every row once, in no particular order; an empty table gives []. */
    method FindAll(fault: bool) returns (r: Result<seq<User>>)
      requires Valid()
      ensures ListedAll(rows, fault, r)
    {
      if fault {
        r := Failure(StoreFailure(FindAllOp));
        return;
      }
      var all := SelectBelow(rows, None, nextId);
      ghost var seen := SelectBelowScans(rows, None, nextId);
      ScanComplete(rows, None, nextId, all, seen);
      assert forall k :: k in seen <==> k in rows.Keys;
      assert seen == rows.Keys;
      r := Success(all);
    }

    /**
     * `update`: overwrite the row of `user.id` with all of `user`'s fields and
     * return the committed row. Only a user whose row exists is passed here;
     * what the store does with any other user is not part of this model.
     */
    method Update(user: User, fault: bool) returns (r: Result<User>)
      requires Valid()
      requires user.id.Some? && user.id.value in rows
      modifies this
      ensures Valid()
      ensures writes == old(writes) + [UpdateCall(user)]
      ensures nextId == old(nextId)
      ensures r.Success? <==> !fault
      ensures r.Success? ==> r.value == user && rows == old(rows)[user.id.value := user]
      ensures r.Failure? ==> r.error == StoreFailure(UpdateOp) && rows == old(rows)
    {
      writes := writes + [UpdateCall(user)];
      if fault {
        // the transaction is rolled back: the row keeps its committed values
        r := Failure(StoreFailure(UpdateOp));
        return;
      }
      rows := rows[user.id.value := user];
      r := Success(user);
    }

    /** `delete`: remove the row with that key if there is one; no row is not an error. */
    method Delete(id: int, fault: bool) returns (r: Result<()>)
      requires Valid()
      modifies this
      ensures Valid()
      ensures writes == old(writes) + [DeleteCall(id)]
      ensures nextId == old(nextId)
      ensures r.Success? <==> !fault
      ensures r.Success? ==> id !in rows && rows == old(rows) - {id}
      ensures r.Success? && id !in old(rows) ==> rows == old(rows)
      ensures r.Failure? ==> r.error == StoreFailure(DeleteOp) && rows == old(rows)
    {
      writes := writes + [DeleteCall(id)];
      if fault {
        r := Failure(StoreFailure(DeleteOp));
        return;
      }
      if id in rows {
        rows := rows - {id};
      }
      r := Success(());
    }

    /**
     * `findByEmail`: the row whose stored email equals the normalised query.
     * No match is an empty result; two or more make `uniqueResult` raise.
     */
    method FindByEmail(email: string, fault: bool) returns (r: Result<Option<User>>)
      requires Valid()
      ensures FoundByEmail(rows, email, fault, r)
    {
      if fault {
        r := Failure(StoreFailure(FindByEmailOp));
        return;
      }
      var key := Normalize(email);
      var found := SelectBelow(rows, Some(key), nextId);
      ghost var seen := SelectBelowScans(rows, Some(key), nextId);
      ScanComplete(rows, Some(key), nextId, found, seen);
      assert forall k :: k in seen <==> k in EmailMatches(rows, email);
      assert seen == EmailMatches(rows, email);
      if |found| == 0 {
        r := Success(None);
      } else if |found| == 1 {
        // `uniqueResult` with exactly one row
        assert found[0].id.value in seen;
        assert |seen - {found[0].id.value}| == 0;
        r := Success(Some(found[0]));
      } else {
        // `uniqueResult` raises on two or more rows; the DAO wraps it
        r := Failure(StoreFailure(FindByEmailOp));
      }
    }
  }
}
