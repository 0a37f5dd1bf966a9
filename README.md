# user-service: the users repository and service, modelled in Dafny

The application keeps users in one relational table, reached through two layers.

- `UserDaoImpl` is the repository. It has six operations: `save`, `findById`, `findAll`, `update`, `delete` and `findByEmail`. Each write runs in its own transaction. A transaction either commits or is rolled back, and on rollback the DAO raises a `DaoException`.
- `UserServiceImpl` sits on top of the repository. Reads and deletes are passed straight down. `createUser` builds a user without an id. `updateUser` does a partial update: it loads the row by id, overwrites the fields that were supplied, and writes the merged user back.

The model replaces the database with the state it exposes:

- `Dao.UserDaoImpl.rows` is a map from primary key to `User`.
- `nextId` is the store's id generator.
- A ghost log `writes` records every call of the write path. The service's contracts use it to say which writes happen and which never do.

Whether the store raises during a call cannot be seen from the code. It becomes a `fault` parameter of each operation (`findFails` and `updateFails` for the two store calls in `updateUser`). All of the code's failures reach the caller:

- the DAO's failures are `StoreFailure(op)`, naming the operation;
- the service's own "not found" is `NotFound(id)`.

The email lookup compares the stored email, as stored, with `email.trim().toLowerCase()` of the query (module `Text`, with Java's `trim` and ASCII lower case). This gives three results:

- the normalisation is idempotent, and `trim` and `toLowerCase` commute;
- a stored email that is already trimmed and lower case is found by any query that differs from it only by blanks at the ends and by the case of ASCII letters;
- a stored email that is not in that form is found by no query at all.

Modules: `Entity` (the `User` value), `Errors`, `Text` (the normalisation), `Rows` (facts about the table as a value: the query scan and email matching), `Dao`, `Service` and `Scenarios`. `Scenarios` holds client methods that replay the integration and service tests against the contracts alone.

### Intended behaviour that the code does not have
The model follows the code in each case.

- Email lookup is meant to be case- and whitespace-insensitive, comparing both sides in normalised form. The code normalises only the query parameter (`UserDaoImpl.java:116`) and stores emails as given. `Rows.NonCanonicalNeverMatches` states the consequence, and `Scenarios.MixedCaseEmailNotFound` shows it: a user created with the email `A@b` is not found by `A@b`.
- The lookup key is meant to be the query lowered and trimmed; the code lowers after trimming. `Text.TrimLowerCommute` proves that the two orders give the same key.
- "Not found" in `updateUser` is meant to be an error kind of its own. In the code it is an ordinary `DaoException` with a message. The model keeps it as its own kind, `NotFound(id)`, because callers of `updateUser` can tell the two apart only by the message.

## Model

| member | source | states |
|---|---|---|
| Text.Normalize | src/main/java/com/example/dao/UserDaoImpl.java:116 | the lookup key `email.trim().toLowerCase()` is trimmed and never longer than the query; `Text.NormalizeIsCanonical`, `Text.NormalizeIdempotent` and `Text.TrimLowerCommute` state its other properties |
| Text.TrimLeading | src/main/java/com/example/dao/UserDaoImpl.java:116 | the result does not start with a blank and is no longer than the input |
| Text.TrimTrailing | src/main/java/com/example/dao/UserDaoImpl.java:116 | the result does not end with a blank, is no longer than the input, and keeps the input's first character |
| Text.Trim | src/main/java/com/example/dao/UserDaoImpl.java:116 | `trim` gives a string with no blank at either end |
| Text.Lower | src/main/java/com/example/dao/UserDaoImpl.java:116 | `toLowerCase` keeps the length and lowers each character in its place |
| Text.TrimLeadingSplit | src/main/java/com/example/dao/UserDaoImpl.java:116 | what the leading trim removes is a prefix made only of blanks |
| Text.TrimTrailingSplit | src/main/java/com/example/dao/UserDaoImpl.java:116 | what the trailing trim removes is a suffix made only of blanks |
| Text.TrimSplit | src/main/java/com/example/dao/UserDaoImpl.java:116 | every string is a blank prefix, then its trim, then a blank suffix |
| Text.TrimPadded | src/main/java/com/example/dao/UserDaoImpl.java:116 | a trimmed string padded with blanks trims back to itself |
| Text.LowerIdempotent | src/main/java/com/example/dao/UserDaoImpl.java:116 | lowering twice is lowering once |
| Text.TrimLowerCommute | src/main/java/com/example/dao/UserDaoImpl.java:116 | trimming then lowering equals lowering then trimming |
| Text.NormalizeIsCanonical | src/main/java/com/example/dao/UserDaoImpl.java:116 | every lookup key is trimmed and in lower case |
| Text.CanonicalIffFixed | src/main/java/com/example/dao/UserDaoImpl.java:116 | a string is trimmed and lower case exactly when normalising leaves it unchanged, in both directions |
| Text.NormalizeIdempotent | src/main/java/com/example/dao/UserDaoImpl.java:116 | normalising twice gives the same key as normalising once |
| Text.TrimIgnoresPadding | src/main/java/com/example/dao/UserDaoImpl.java:116 | blanks added around any input do not change its trim |
| Text.NormalizeIgnoresPadding | src/test/java/com/example/dao/UserDaoImplIntegrationTest.java:150-157 | blanks added around a query do not change its key |
| Text.NormalizeIgnoresCase | src/main/java/com/example/dao/UserDaoImpl.java:116 | two queries that differ only in ASCII letter case have the same key |
| Text.PaddedVariantNormalizes | src/test/java/com/example/dao/UserDaoImplIntegrationTest.java:150-157 | a padded, case-varied form of a canonical email normalises to that email |
| Rows.EmailMatches | src/main/java/com/example/dao/UserDaoImpl.java:114-116 | the keys that the email query selects are keys of the table, and each has a trimmed, lower-case stored email; `Rows.NonCanonicalNeverMatches`, `Rows.CanonicalMatchesPaddedVariant` and `Rows.UniqueEmailsMatchAtMostOne` state which rows match |
| Rows.SelectBelow | src/main/java/com/example/dao/UserDaoImpl.java:56-58 | the query's result list, for `findAll` and for `findByEmail` (lines 114-118): no longer than the number of keys scanned, and every element is a row of the table that passes the filter; `Rows.SelectBelowScans` and `Rows.ScanComplete` show that it holds every selected row exactly once |
| Rows.SelectBelowScans | src/main/java/com/example/dao/UserDaoImpl.java:56-58 | the query result holds, once each, exactly the rows under the keys it selected, and no others |
| Rows.ScanComplete | src/main/java/com/example/dao/UserDaoImpl.java:114-118 | a query over every key took exactly the rows that pass the filter: a key is taken iff it is selected, and a user is in the result iff it is the row of a selected key |
| Rows.UniqueEmailsMatchAtMostOne | src/main/java/com/example/dao/UserDaoImpl.java:118 | under a unique-email assumption on the table, a matching row is the only match |
| Rows.NonCanonicalNeverMatches | src/main/java/com/example/dao/UserDaoImpl.java:114-116 | a row whose stored email has a blank at an end or an upper-case letter is matched by no query |
| Rows.CanonicalMatchesPaddedVariant | src/test/java/com/example/dao/UserDaoImplIntegrationTest.java:150-157 | a row with a canonical email is matched by that email padded with blanks and with its letters in any case |
| Dao.UserDaoImpl.constructor | src/main/java/com/example/dao/UserDaoImpl.java:16 | a fresh, empty store whose id generator stands at 1, with no writes yet |
| Dao.UserDaoImpl.Save | src/main/java/com/example/dao/UserDaoImpl.java:21-38 | success iff no fault and the user has no id yet; the id given is not yet in the table, the user is stored under it with every field as given and returned, and no other row changes; on failure it reports SaveOp and the table and counter are as before |
| Dao.UserDaoImpl.FindById | src/main/java/com/example/dao/UserDaoImpl.java:42-49 | fails only on a store fault; otherwise gives a user iff the key is present, and then it is that row, carrying that id; a missing key is empty, not an error |
| Dao.UserDaoImpl.FindAll | src/main/java/com/example/dao/UserDaoImpl.java:53-62 | fails only on a store fault; otherwise lists every stored row exactly once and nothing else (same size, same members, no duplicates), so an empty table gives [] |
| Dao.UserDaoImpl.Update | src/main/java/com/example/dao/UserDaoImpl.java:66-83 | for a user whose row exists: on success the row is replaced by the user and the user is returned, and every other row is unchanged; on failure it reports UpdateOp and the table is as before |
| Dao.UserDaoImpl.Delete | src/main/java/com/example/dao/UserDaoImpl.java:87-108 | on success the key is absent afterwards, only that row is removed, and an absent key changes nothing and is not an error; on failure it reports DeleteOp and the table is as before |
| Dao.UserDaoImpl.FindByEmail | src/main/java/com/example/dao/UserDaoImpl.java:112-124 | with no fault: no row whose stored email equals the normalised query gives empty, exactly one gives that row, and two or more give a failure; a returned user is the only match, is stored under its id, and its email is the key |
| Service.UserServiceImpl.constructor | src/main/java/com/example/service/UserServiceImpl.java:15 | the service is bound to the given DAO, and is valid when that DAO is |
| Service.UserServiceImpl.CreateUser | src/main/java/com/example/service/UserServiceImpl.java:18-25 | exactly one save, of the user with the given name, email and age and no id; save's result is returned, and its error is passed on |
| Service.UserServiceImpl.GetUserById | src/main/java/com/example/service/UserServiceImpl.java:28-30 | findById's answer, unchanged; the store is not modified |
| Service.UserServiceImpl.GetUserByEmail | src/main/java/com/example/service/UserServiceImpl.java:33-35 | findByEmail's answer, unchanged; the store is not modified |
| Service.UserServiceImpl.GetAllUsers | src/main/java/com/example/service/UserServiceImpl.java:38-40 | findAll's answer, unchanged; the store is not modified |
| Service.UserServiceImpl.UpdateUser | src/main/java/com/example/service/UserServiceImpl.java:43-52 | a failed load, or an absent id (NotFound), writes nothing and changes nothing; otherwise exactly one update of the loaded row keeping its id, with each supplied field replaced and each absent one kept; only that row changes, and an update failure is passed on; with no field supplied the loaded user is written back as it was |
| Service.UserServiceImpl.DeleteUser | src/main/java/com/example/service/UserServiceImpl.java:55-57 | exactly one delete of that id; an absent id stays a success and is not turned into not found; a failure is passed on with the table as before |

## Left out
- The console front end (`Main.java`) is left out: its menu loop, prompts, input checks and the substring heuristic on driver error messages. It is I/O and user-interface code outside the repository and service.
- Session factory set-up and shutdown (`HibernateUtil.java` and its test variant) are global configuration of a foreign library, so they are left out.
- Hibernate's internals are left out: sessions, transaction objects, `persist`, `merge`, `get`, `remove` and the criteria query. A write is modelled as one step that either commits entirely or leaves the table as it was.
- Dao.UserDaoImpl.Update: requires that the user's id is present in the table; what `merge` does with an unsaved user or with an unknown id is not modelled.
- Dao.UserDaoImpl.Save: the source's `persist` sets the id inside the caller's object. The model returns the new user as a value and does not model that aliasing.
- Dao.UserDaoImpl.Save: the id generator is a counter that grows by one per successful save, and the new id is exactly the counter. A real sequence may skip values. The model does not capture that.
- Dao.UserDaoImpl.constructor: the source's DAO keeps no state of its own; it opens sessions on whatever table exists, and deleting rows does not reset the id sequence. The constructor models a fresh, empty store with its generator at 1. The scenarios that expect the ids 1 and 2 (`ServiceCreatesTwo`, `ServicePartialUpdate`, `ServiceDeleteOne`, `MixedCaseEmailNotFound`) assume such a store.
- Dao.UserDaoImpl.Save: a user that already carries an id is refused, as `persist` refuses a detached entity. This assumes that the `User` mapping, which is not part of this model, generates its ids.
- Dao.UserDaoImpl.FindAll: the store returns rows in no particular order. The model returns them in key order, and the contract promises no order.
- `createdAt` is left out: it comes from the clock and no operation of the core reads it.
- The store's unique constraint on the email column is not in the model's state. `Rows.EmailsUnique` states it as an explicit assumption, used only by `Rows.UniqueEmailsMatchAtMostOne`. Without it, a `save` that the constraint would refuse succeeds in the model.
- Which store call raises, and why (lost connection, constraint violation, failed commit), is unseen. It arrives as the `fault` parameters.
- Error messages and logging are left out; only the kind of error is kept. The service tests expect wrapped messages that the code does not produce.
- The service builds its own `UserDaoImpl` over a global session factory. The model's service takes the DAO in its constructor, so a client can see the table. The constructor the service tests use does not exist in the code.
- Concurrency is left out, including the check-then-insert race on email: every call is sequential.
- Java `trim` is modelled exactly, as dropping characters up to U+0020. `toLowerCase` is modelled on the ASCII letters only, with no locale or other Unicode case mappings.
- Integers are unbounded: overflow of `Long` ids and of `Integer` ages is not modelled.
- Null arguments to the DAO are not modelled (a null user, id or email). The service's optional arguments are `Option` values.
