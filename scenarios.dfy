// Client code that replays the repository's integration and service tests
// against the contracts alone: what a caller can conclude from them.

module Scenarios {
  import opened Entity
  import opened Errors
  import opened Text
  import opened Rows
  import opened Dao
  import opened Service

  /** save, then findById of the new id; findById of an unknown id is empty. */
  method SaveThenFind() {
    var dao := new UserDaoImpl();
    var saved := dao.Save(User(None, "Test User", "find@example.com", Some(25)), false);
    assert saved.Success?;
    var id := saved.value.id.value;
    var found := dao.FindById(id, false);
    assert found == Success(Some(User(Some(id), "Test User", "find@example.com", Some(25))));
    var missing := dao.FindById(999, false);
    assert missing == Success(None);
  }

  /** update overwrites the row; delete removes it, and deleting again is no error. */
  method UpdateThenDelete() {
    var dao := new UserDaoImpl();
    var saved := dao.Save(User(None, "Test User", "update@example.com", Some(25)), false);
    var id := saved.value.id.value;
    var changed := saved.value.(name := "Updated Name", age := Some(30));
    var updated := dao.Update(changed, false);
    assert updated == Success(changed);
    var found := dao.FindById(id, false);
    assert found.value.value.name == "Updated Name";
    var deleted := dao.Delete(id, false);
    found := dao.FindById(id, false);
    assert found == Success(None);
    deleted := dao.Delete(id, false);
    assert deleted.Success?;
  }

  /**
   * A stored email that is already trimmed and in lower case is found by the
   * same email padded with blanks on either side.
   */
  method FindPaddedEmail(e: string, p: string, q: string)
    requires Canonical(e) && AllBlank(p) && AllBlank(q)
  {
    var dao := new UserDaoImpl();
    var saved := dao.Save(User(None, "Test User", e, Some(25)), false);
    var id := saved.value.id.value;
    CanonicalMatchesPaddedVariant(dao.rows, id, p, e, q);
    UniqueEmailsMatchAtMostOne(dao.rows, p + e + q, id);
    var found := dao.FindByEmail(p + e + q, false);
    assert found == Success(Some(saved.value));
  }

  /**
   * The email is stored as given, so a user created with an upper-case letter in
   * the email is not found even by exactly the string it was created with.
   */
  method MixedCaseEmailNotFound() {
    var dao := new UserDaoImpl();
    var service := new UserServiceImpl(dao);
    var created := service.CreateUser("Test User", "A@b", Some(25), false);
    assert !Canonical(dao.rows[1].email) by {
      assert Lower("A@b")[0] == 'a';
    }
    NonCanonicalNeverMatches(dao.rows, "A@b", 1);
    assert EmailMatches(dao.rows, "A@b") == {};
    var found := service.GetUserByEmail("A@b", false);
    assert found == Success(None);
  }

  /** For any table and any fields, a created user is read back by its new id with the same fields. */
  method CreateThenGet(dao: UserDaoImpl, name: string, email: string, age: Option<int>)
    requires dao.Valid()
    modifies dao
  {
    var service := new UserServiceImpl(dao);
    var created := service.CreateUser(name, email, age, false);
    var found := service.GetUserById(created.value.id.value, false);
    assert found == Success(Some(User(created.value.id, name, email, age)));
  }

  /** Two creates through the service get the ids 1 and 2, and both are listed. */
  method ServiceCreatesTwo() {
    var dao := new UserDaoImpl();
    var service := new UserServiceImpl(dao);
    var alice := service.CreateUser("Alice", "alice@test.com", Some(30), false);
    assert alice == Success(User(Some(1), "Alice", "alice@test.com", Some(30)));
    var bob := service.CreateUser("Bob", "bob@test.com", None, false);
    assert bob == Success(User(Some(2), "Bob", "bob@test.com", None));
    var all := service.GetAllUsers(false);
    assert |all.value| == 2;
  }

  /** A partial update keeps the fields it is not given; an unknown id writes nothing. */
  method ServicePartialUpdate() {
    var dao := new UserDaoImpl();
    var service := new UserServiceImpl(dao);
    var alice := service.CreateUser("Alice", "alice@test.com", Some(30), false);
    var older := service.UpdateUser(1, None, None, Some(31), false, false);
    assert older == Success(User(Some(1), "Alice", "alice@test.com", Some(31)));
    var before := dao.writes;
    var nobody := service.UpdateUser(999, Some("New Name"), None, None, false, false);
    assert nobody == Failure(NotFound(999));
    assert dao.writes == before;
  }

  /** After a delete the row is gone and the listing holds only the other user. */
  method ServiceDeleteOne() {
    var dao := new UserDaoImpl();
    var service := new UserServiceImpl(dao);
    var alice := service.CreateUser("Alice", "alice@test.com", Some(30), false);
    var bob := service.CreateUser("Bob", "bob@test.com", None, false);
    var deleted := service.DeleteUser(2, false);
    assert dao.rows == map[1 := alice.value];
    var gone := service.GetUserById(2, false);
    assert gone == Success(None);
    var all := service.GetAllUsers(false);
    assert |all.value| == 1 && all.value[0] in dao.rows.Values;
    assert all.value == [alice.value];
  }

  /** A failing write leaves the table as it was, and the service passes the error on. */
  method FailuresPropagate() {
    var dao := new UserDaoImpl();
    var service := new UserServiceImpl(dao);
    var created := service.CreateUser("Test", "test@example.com", Some(25), true);
    assert created == Failure(StoreFailure(SaveOp));
    assert dao.rows == map[];
    var deleted := service.DeleteUser(1, true);
    assert deleted == Failure(StoreFailure(DeleteOp));
  }
}
