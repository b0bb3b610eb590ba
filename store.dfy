/**
 * The storage handle the handlers use (the `Database` interface of db/db.go,
 * implemented by `dbConnection`), with the `users` table held as a map from
 * id to row. Whether the driver succeeds on a statement is an input
 * (`Fault`); the store records every statement it is asked to run, so that a
 * handler's contract can say which storage operations it called.
 */
module Storage {
  import opened Wrappers
  import opened Models
  import opened Db

  /** What the driver does with one statement: runs it, or fails with a cause. */
  datatype Fault = NoFault | Fault(cause: string)

  /** A storage operation the store was asked to perform. */
  datatype Call =
    | CreateCall(user: User)
    | GetCall(id: int)
    | UpdateCall(query: string, args: seq<Param>)
    | DeleteCall(id: int)

  /**
   * The table after an UPDATE of row `id` that assigns only data columns:
   * the same ids, every row other than `id` as it was, and row `id` still
   * under its own id with every column the field map does not assign as it
   * was. What the assigned columns become is left open.
   */
  ghost predicate RowUpdated(before: map<int, User>, after: map<int, User>, id: int, entries: seq<(string, Value)>) {
    after.Keys == before.Keys &&
    (forall k :: k in after && k != id ==> after[k] == before[k]) &&
    (id in after ==>
      after[id].id == id &&
      (!Assigns(entries, "name") ==> after[id].name == before[id].name) &&
      (!Assigns(entries, "email") ==> after[id].email == before[id].email) &&
      (!Assigns(entries, "age") ==> after[id].age == before[id].age))
  }

  /** The driver's error for an INSERT whose new id is already taken by a row. */
  const DuplicateKey := "duplicate key value violates unique constraint"

  class Store {
    /** The rows of `users`, by primary key. */
    var users: map<int, User>
    /** The next value of the `serial` sequence behind `id`. */
    var nextId: int
    /** Every operation called on this store, oldest first. */
    var calls: seq<Call>

    /**
     * Every row sits under its own id, and the sequence issues ids from 1 on.
     * An UPDATE may set `id`, so a row's id need not come from the sequence.
     */
    ghost predicate Valid()
      reads this
    {
      1 <= nextId &&
      forall id :: id in users ==> users[id].id == id
    }

    constructor ()
      ensures Valid() && users == map[] && nextId == 1 && calls == []
    {
      users := map[];
      nextId := 1;
      calls := [];
    }

    /**
     * `CreateUser` (db/db.go): INSERT ... RETURNING id. The new id is the
     * sequence's next value; if a row already holds it (an UPDATE moved one
     * there), the primary key rejects the insert, and the value is used up.
     */
    method CreateUser(user: User, driver: Fault) returns (id: int, err: Option<DbError>)
      requires Valid()
      modifies this
      ensures Valid()
      ensures calls == old(calls) + [CreateCall(user)]
      ensures err.None? <==> driver.NoFault? && old(nextId) !in old(users)
      ensures driver.NoFault? && old(nextId) !in old(users) ==>
        id == old(nextId) && id >= 1 &&
        users == old(users)[id := user.(id := id)] && nextId == old(nextId) + 1
      ensures driver.NoFault? && old(nextId) in old(users) ==>
        id == -1 && err == Some(DriverError(DuplicateKey)) &&
        users == old(users) && nextId == old(nextId) + 1
      ensures driver.Fault? ==>
        id == -1 && err == Some(DriverError(driver.cause)) &&
        users == old(users) && nextId == old(nextId)
    {
      calls := calls + [CreateCall(user)];
      var row: Row<int>;
      if driver.Fault? {
        row := ScanError(DriverError(driver.cause));
      } else if nextId in users {
        row := ScanError(DriverError(DuplicateKey));
        nextId := nextId + 1;
      } else {
        row := Scanned(nextId);
        users := users[nextId := user.(id := nextId)];
        nextId := nextId + 1;
      }
      var r := CreateUserResult(row);
      id, err := r.0, r.1;
    }

    /** `GetUserById` (db/db.go): SELECT ... WHERE id = $1 LIMIT 1. */
    method GetUserById(id: int, driver: Fault) returns (user: Option<User>, err: Option<DbError>)
      requires Valid()
      modifies this`calls
      ensures Valid()
      ensures calls == old(calls) + [GetCall(id)]
      ensures user.None? <==> driver.NoFault? && id !in users
      ensures err.None? <==> driver.NoFault? && id in users
      ensures driver.NoFault? && id in users ==> user == Some(users[id])
      ensures driver.NoFault? && id !in users ==> err == Some(ErrNoRows)
      ensures driver.Fault? ==> err == Some(DriverError(driver.cause))
    {
      calls := calls + [GetCall(id)];
      var row: Row<User>;
      if driver.Fault? {
        row := ScanError(DriverError(driver.cause));
      } else if id in users {
        row := Scanned(users[id]);
      } else {
        row := ScanError(ErrNoRows);
      }
      var r := GetUserResult(row);
      user, err := r.0, r.1;
    }

    /**
     * `UpdateUserById` (db/db.go): runs the statement built from the field map.
     * When every key names a data column, a successful run changes at most
     * the assigned columns of row `id`; what they become is SQL's conversion
     * of the values and is left open. Any other key can move or change any
     * row, so the table afterwards is then any table of rows under their ids.
     */
    method UpdateUserById(id: int, newData: seq<(string, Value)>, driver: Fault) returns (err: Option<DbError>)
      requires Valid()
      modifies this`calls, this`users
      ensures Valid()
      ensures calls == old(calls) + [UpdateCall(UpdateStatement(newData), BoundValues(id, newData))]
      ensures err.None? <==> driver.NoFault?
      ensures driver.Fault? ==> err == Some(DriverError(driver.cause)) && users == old(users)
      ensures driver.NoFault? && PlainColumns(newData) ==> RowUpdated(old(users), users, id, newData)
    {
      var query, values := BuildUpdate(id, newData);
      calls := calls + [UpdateCall(query, values)];
      if driver.Fault? {
        err := Some(DriverError(driver.cause));
        return;
      }
      if !PlainColumns(newData) {
        assert forall k :: k in users ==> users[k].id == k;
        var table: map<int, User> :| forall k :: k in table ==> table[k].id == k;
        users := table;
      } else if id in users {
        var before := users[id];
        var row: User :| row.id == id &&
          (!Assigns(newData, "name") ==> row.name == before.name) &&
          (!Assigns(newData, "email") ==> row.email == before.email) &&
          (!Assigns(newData, "age") ==> row.age == before.age);
        users := users[id := row];
      }
      err := None;
    }

    /** `DeleteUserById` (db/db.go): DELETE ... WHERE id = $1; deleting a missing id succeeds. */
    method DeleteUserById(id: int, driver: Fault) returns (err: Option<DbError>)
      requires Valid()
      modifies this`calls, this`users
      ensures Valid()
      ensures calls == old(calls) + [DeleteCall(id)]
      ensures err.None? <==> driver.NoFault?
      ensures driver.NoFault? ==> users == old(users) - {id} && id !in users
      ensures driver.Fault? ==> users == old(users) && err == Some(DriverError(driver.cause))
    {
      calls := calls + [DeleteCall(id)];
      if driver.NoFault? {
        users := users - {id};
        err := None;
      } else {
        err := Some(DriverError(driver.cause));
      }
    }
  }
}
