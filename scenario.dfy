/**
 * The end-to-end request sequence the service is expected to serve:
 * create a user, read it, update it, read it, delete it, read it again and
 * delete it again, against a fresh table, with every driver call succeeding.
 */
module Scenario {
  import opened Strings
  import opened Models
  import opened Db
  import opened Storage
  import opened Server

  const John := User(0, "John", "j@x.com", 30)
  const StoredJohn := User(1, "John", "j@x.com", 30)
  const AgeUpdate: seq<(string, Value)> := [("age", Number(31.0))]
  const AgeUpdateCall := UpdateCall("UPDATE users SET age=$2 WHERE id = $1", [IdParam(1), FieldParam(Number(31.0))])

  /** The statement PUT /users/1 with body {"age":31} executes. */
  lemma AgeUpdateStatement()
    ensures UpdateStatement(AgeUpdate) == "UPDATE users SET age=$2 WHERE id = $1"
    ensures BoundValues(1, AgeUpdate) == [IdParam(1), FieldParam(Number(31.0))]
  {
  }

  /** POST /users, then GET /users/1, on an empty table. */
  method CreateRead(db: Store, marshal: User -> Decoded<string>)
    returns (statuses: seq<int>, bodies: seq<string>)
    requires db.Valid() && db.users == map[] && db.nextId == 1 && db.calls == []
    modifies db
    ensures db.Valid() && db.users == map[1 := StoredJohn]
    ensures db.calls == [CreateCall(John), GetCall(1)]
    ensures marshal(StoredJohn).Decoded? ==>
      statuses == [201, 200] && bodies == ["1", marshal(StoredJohn).value]
  {
    assert IntToString(1) == "1";
    var w := new Response();
    CreateUser(db, w, ReadOk, Decoded(John), NoFault);
    var s1, b1 := w.status, w.body;

    w := new Response();
    GetUser(db, w, Present(Decoded(1)), NoFault, marshal);
    statuses, bodies := [s1, w.status], [b1, w.body];
  }

  /**
   * PUT /users/1 with body {"age":31}, then GET /users/1, once the row is
   * stored. The UPDATE assigns only `age`, so the read returns John's row
   * with the same name and email and whatever age the UPDATE stored.
   */
  method UpdateRead(db: Store, marshal: User -> Decoded<string>)
    returns (statuses: seq<int>, bodies: seq<string>, row: User)
    requires db.Valid() && db.users == map[1 := StoredJohn]
    requires forall u :: marshal(u).Decoded?
    modifies db
    ensures db.Valid() && db.users == map[1 := row] && row == StoredJohn.(age := row.age)
    ensures db.calls == old(db.calls) + [GetCall(1), AgeUpdateCall, GetCall(1)]
    ensures statuses == [200, 200] && bodies == ["1", marshal(row).value]
  {
    assert IntToString(1) == "1";
    AgeUpdateStatement();
    assert PlainColumns(AgeUpdate) && !Assigns(AgeUpdate, "name") && !Assigns(AgeUpdate, "email");
    var w := new Response();
    UpdateUser(db, w, Present(Decoded(1)), ReadOk, Decoded(AgeUpdate), NoFault, NoFault);
    var s1, b1 := w.status, w.body;
    row := db.users[1];

    w := new Response();
    GetUser(db, w, Present(Decoded(1)), NoFault, marshal);
    statuses, bodies := [s1, w.status], [b1, w.body];
  }

  /** DELETE /users/1, GET /users/1, DELETE /users/1 once the row is stored. */
  method DeleteReadDelete(db: Store, marshal: User -> Decoded<string>)
    returns (statuses: seq<int>, bodies: seq<string>)
    requires db.Valid() && db.users.Keys == {1}
    modifies db
    ensures db.Valid() && db.users == map[]
    ensures db.calls == old(db.calls) + [GetCall(1), DeleteCall(1), GetCall(1), GetCall(1)]
    ensures statuses == [200, 404, 404]
    ensures bodies == ["1", "user not found", "user not found"]
  {
    assert IntToString(1) == "1";
    var one := Present(Decoded(1));

    var w := new Response();
    DeleteUser(db, w, one, NoFault, NoFault);
    var s1, b1 := w.status, w.body;

    w := new Response();
    GetUser(db, w, one, NoFault, marshal);
    var s2, b2 := w.status, w.body;

    w := new Response();
    DeleteUser(db, w, one, NoFault, NoFault);
    var s3, b3 := w.status, w.body;

    statuses, bodies := [s1, s2, s3], [b1, b2, b3];
  }

  /**
   * The whole sequence: the created user gets id 1, the first read returns
   * it, the second read returns it with at most its age changed by the
   * UPDATE, and after the delete the user is gone, so the second delete
   * answers 404.
   */
  method EndToEnd(marshal: User -> Decoded<string>) returns (statuses: seq<int>, bodies: seq<string>, calls: seq<Call>)
    requires forall u :: marshal(u).Decoded?
    ensures statuses == [201, 200, 200, 200, 200, 404, 404]
    ensures |bodies| == 7
    ensures bodies[..3] == ["1", marshal(StoredJohn).value, "1"]
    ensures exists age :: marshal(User(1, "John", "j@x.com", age)) == Decoded(bodies[3])
    ensures bodies[4..] == ["1", "user not found", "user not found"]
    ensures calls == [CreateCall(John), GetCall(1), GetCall(1), AgeUpdateCall, GetCall(1),
                      GetCall(1), DeleteCall(1), GetCall(1), GetCall(1)]
  {
    var db := new Store();
    var s1, b1 := CreateRead(db, marshal);
    var s2, b2, row := UpdateRead(db, marshal);
    var s3, b3 := DeleteReadDelete(db, marshal);
    statuses, bodies, calls := s1 + s2 + s3, b1 + b2 + b3, db.calls;
    assert marshal(row) == Decoded(bodies[3]);
  }
}
