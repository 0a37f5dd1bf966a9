// UserServiceImpl: entity-level operations over the DAO. Reads and deletes
// are handed straight to the DAO; create builds an id-less user; update loads
// the row, overwrites the fields that were supplied and writes the result
// back. No method catches anything: every DAO error reaches the caller as it is.

module Service {
  import opened Entity
  import opened Errors
  import opened Dao

  class UserServiceImpl {
    const dao: UserDaoImpl

    ghost predicate Valid()
      reads this, dao
    {
      dao.Valid()
    }

    /** The service over the given DAO. */
    constructor (dao: UserDaoImpl)
      requires dao.Valid()
      ensures this.dao == dao && Valid()
    {
      this.dao := dao;
    }

    /** `createUser`: one call of `save` with a user that has no id yet; its result is returned. */
    method CreateUser(name: string, email: string, age: Option<int>, fault: bool) returns (r: Result<User>)
      requires Valid()
      modifies dao
      ensures Valid()
      ensures dao.writes == old(dao.writes) + [SaveCall(User(None, name, email, age))]
      ensures r.Success? <==> !fault
      ensures r.Success? ==>
        && old(dao.nextId) !in old(dao.rows)
        && r.value == User(Some(old(dao.nextId)), name, email, age)
        && dao.rows == old(dao.rows)[old(dao.nextId) := r.value]
        && dao.nextId == old(dao.nextId) + 1
      ensures r.Failure? ==>
        && r.error == StoreFailure(SaveOp)
        && dao.rows == old(dao.rows) && dao.nextId == old(dao.nextId)
    {
      var user := User(None, name, email, age);
      r := dao.Save(user, fault);
    }

    /** `getUserById`: the DAO's answer, unchanged. */
    method GetUserById(id: int, fault: bool) returns (r: Result<Option<User>>)
      requires Valid()
      ensures FoundById(dao.rows, id, fault, r)
    {
      r := dao.FindById(id, fault);
    }

    /** `getUserByEmail`: the DAO's answer, unchanged. */
    method GetUserByEmail(email: string, fault: bool) returns (r: Result<Option<User>>)
      requires Valid()
      ensures FoundByEmail(dao.rows, email, fault, r)
    {
      r := dao.FindByEmail(email, fault);
    }

    /** `getAllUsers`: the DAO's answer, unchanged. */
    method GetAllUsers(fault: bool) returns (r: Result<seq<User>>)
      requires Valid()
      ensures ListedAll(dao.rows, fault, r)
    {
      r := dao.FindAll(fault);
    }

    /**
     * `updateUser`: a partial update. The row is loaded by id (a missing row is
     * "not found" and nothing is written); every supplied field replaces the
     * loaded one, every absent one is kept, and the merged user goes to `update`.
     * `findFails` and `updateFails` say whether the store raises in the load and
     * in the write.
     */
    method UpdateUser(id: int, name: Option<string>, email: Option<string>, age: Option<int>,
                      findFails: bool, updateFails: bool) returns (r: Result<User>)
      requires Valid()
      modifies dao
      ensures Valid()
      ensures dao.nextId == old(dao.nextId)
      ensures findFails ==>
        r == Failure(StoreFailure(FindByIdOp)) && dao.rows == old(dao.rows) && dao.writes == old(dao.writes)
      ensures !findFails && id !in old(dao.rows) ==>
        r == Failure(NotFound(id)) && dao.rows == old(dao.rows) && dao.writes == old(dao.writes)
      ensures !findFails && id in old(dao.rows) ==>
        var before := old(dao.rows[id]);
        var merged := User(Some(id),
                           if name.Some? then name.value else before.name,
                           if email.Some? then email.value else before.email,
                           if age.Some? then age else before.age);
        && dao.writes == old(dao.writes) + [UpdateCall(merged)]
        && (updateFails ==> r == Failure(StoreFailure(UpdateOp)) && dao.rows == old(dao.rows))
        && (!updateFails ==> r == Success(merged) && dao.rows == old(dao.rows)[id := merged])
      ensures !findFails && id in old(dao.rows) && name.None? && email.None? && age.None? ==>
        dao.writes == old(dao.writes) + [UpdateCall(old(dao.rows[id]))]
    {
      var loaded := GetUserById(id, findFails);
      if loaded.Failure? {
        r := Failure(loaded.error);
        return;
      }
      if loaded.value.None? {
        r := Failure(NotFound(id));
        return;
      }
      var user := loaded.value.value;
      if name.Some? { user := user.(name := name.value); }
      if email.Some? { user := user.(email := email.value); }
      if age.Some? { user := user.(age := age); }
      r := dao.Update(user, updateFails);
    }

    /** `deleteUser`: one call of `delete`; an absent id is not turned into "not found". */
    method DeleteUser(id: int, fault: bool) returns (r: Result<()>)
      requires Valid()
      modifies dao
      ensures Valid()
      ensures dao.writes == old(dao.writes) + [DeleteCall(id)]
      ensures dao.nextId == old(dao.nextId)
      ensures r.Success? <==> !fault
      ensures r.Success? ==> id !in dao.rows && dao.rows == old(dao.rows) - {id}
      ensures r.Success? && id !in old(dao.rows) ==> dao.rows == old(dao.rows)
      ensures r.Failure? ==> r.error == StoreFailure(DeleteOp) && dao.rows == old(dao.rows)
    {
      r := dao.Delete(id, fault);
    }
  }
}
