/**
 * The four request handlers of server/server.go. Each is an early-return
 * ladder: every step either succeeds and hands on to the next, or writes a
 * status and a short message and returns. The library steps a handler takes
 * (reading the body, decoding JSON, reading the `{id}` path variable,
 * `strconv.Atoi`, encoding JSON) are inputs describing their outcome, and so
 * is whether the driver succeeds on each storage call.
 */
module Server {
  import opened Wrappers
  import opened Strings
  import opened Models
  import opened Db
  import opened Storage

  const StatusOK := 200
  const StatusCreated := 201
  const StatusBadRequest := 400
  const StatusNotFound := 404
  const StatusInternalServerError := 500

  /** The outcome of `io.ReadAll(r.Body)`. */
  datatype ReadOutcome = ReadOk | ReadFailed

  /** The outcome of a decoding library call (`json.Unmarshal`, `strconv.Atoi`, `json.Marshal`). */
  datatype Decoded<T> = Decoded(value: T) | Malformed

  /** The `{id}` path variable: missing from `mux.Vars`, or present with the outcome of `strconv.Atoi` on it. */
  datatype PathId = Absent | Present(atoi: Decoded<int>)

  /**
   * An `http.ResponseWriter` as net/http implements it: the status is 200
   * unless `WriteHeader` is called before anything else is written, and the
   * first `WriteHeader` or write fixes it.
   */
  class Response {
    var status: int
    var committed: bool
    var body: string
    /**
     * The Content-Type entry the handler itself set in `w.Header()`. When it
     * is None, net/http still sniffs the body and sends a Content-Type of its
     * own (`text/plain; charset=utf-8` for these messages); that is not modelled.
     */
    var contentType: Option<string>

    /** The state a handler is given a writer in. */
    predicate Unwritten()
      reads this
    {
      status == StatusOK && !committed && body == [] && contentType == None
    }

    /** The response carries this status and exactly this body. */
    predicate Sent(code: int, text: string)
      reads this
    {
      status == code && body == text
    }

    constructor ()
      ensures Unwritten()
    {
      status := StatusOK;
      committed := false;
      body := [];
      contentType := None;
    }

    /** `w.WriteHeader(code)`: takes effect only if nothing has been sent yet. */
    method WriteHeader(code: int)
      modifies this
      ensures status == (if old(committed) then old(status) else code)
      ensures committed && body == old(body) && contentType == old(contentType)
    {
      if !committed {
        status := code;
        committed := true;
      }
    }

    /** `fmt.Fprint(w, text)`: sends the header with the current status if not yet sent. */
    method Write(text: string)
      modifies this
      ensures committed && status == old(status) && contentType == old(contentType)
      ensures body == old(body) + text
    {
      committed := true;
      body := body + text;
    }

    /** `w.Header().Set("Content-Type", value)`: too late once the header is sent. */
    method SetContentType(value: string)
      modifies this`contentType
      ensures contentType == if old(committed) then old(contentType) else Some(value)
    {
      if !committed {
        contentType := Some(value);
      }
    }
  }

  /** `sendError`: writes the status, then the message. */
  method SendError(w: Response, msg: string, code: int)
    modifies w
    ensures w.status == (if old(w.committed) then old(w.status) else code)
    ensures w.body == old(w.body) + msg && w.committed && w.contentType == old(w.contentType)
  {
    w.WriteHeader(code);
    w.Write(msg);
  }

  /** The validation of `createUser`: a user is rejected for a non-positive age, an empty name or an empty email. */
  predicate WrongUserData(u: User) {
    u.age <= 0 || u.name == "" || u.email == ""
  }

  /** `createUser`, for POST /users. */
  method CreateUser(db: Store, w: Response, read: ReadOutcome, decoded: Decoded<User>, driver: Fault)
    requires db.Valid() && w.Unwritten()
    modifies db, w
    ensures db.Valid()
    ensures read.ReadFailed? ==>
      w.Sent(StatusInternalServerError, "failed to read user data") && unchanged(db)
    ensures read.ReadOk? && decoded.Malformed? ==>
      w.Sent(StatusInternalServerError, "failed to parse user data") && unchanged(db)
    ensures read.ReadOk? && decoded.Decoded? && WrongUserData(decoded.value) ==>
      w.Sent(StatusBadRequest, "wrong user data") && unchanged(db)
    ensures read.ReadOk? && decoded.Decoded? && !WrongUserData(decoded.value) ==>
      var user, id := decoded.value, old(db.nextId);
      db.calls == old(db.calls) + [CreateCall(user)] &&
      (driver.NoFault? && id !in old(db.users) ==>
        w.Sent(StatusCreated, IntToString(id)) && id >= 1 &&
        db.users == old(db.users)[id := user.(id := id)] && db.nextId == id + 1) &&
      (driver.NoFault? && id in old(db.users) ==>
        w.Sent(StatusInternalServerError, "failed to create user") &&
        db.users == old(db.users) && db.nextId == id + 1) &&
      (driver.Fault? ==>
        w.Sent(StatusInternalServerError, "failed to create user") &&
        db.users == old(db.users) && db.nextId == old(db.nextId))
    ensures w.status == StatusCreated <==>
      read.ReadOk? && decoded.Decoded? && !WrongUserData(decoded.value) &&
      driver.NoFault? && old(db.nextId) !in old(db.users)
    ensures w.contentType == None
  {
    if read.ReadFailed? {
      SendError(w, "failed to read user data", StatusInternalServerError);
      return;
    }
    if decoded.Malformed? {
      SendError(w, "failed to parse user data", StatusInternalServerError);
      return;
    }
    var user := decoded.value;
    if WrongUserData(user) {
      SendError(w, "wrong user data", StatusBadRequest);
      return;
    }
    var userId, err := db.CreateUser(user, driver);
    if err.Some? {
      SendError(w, "failed to create user", StatusInternalServerError);
      return;
    }
    w.WriteHeader(StatusCreated);
    w.Write(IntToString(userId));
  }

  /** `getUser`, for GET /users/{id}. `marshal` is the outcome of `json.Marshal` on a user. */
  method GetUser(db: Store, w: Response, id: PathId, driver: Fault, marshal: User -> Decoded<string>)
    requires db.Valid() && w.Unwritten()
    modifies db`calls, w
    ensures db.Valid()
    ensures id.Absent? ==>
      w.Sent(StatusBadRequest, "user ID is not provided") && db.calls == old(db.calls)
    ensures id == Present(Malformed) ==>
      w.Sent(StatusBadRequest, "wrong user ID") && db.calls == old(db.calls)
    ensures id.Present? && id.atoi.Decoded? ==>
      var uid := id.atoi.value;
      db.calls == old(db.calls) + [GetCall(uid)] &&
      (driver.NoFault? && uid !in db.users ==> w.Sent(StatusNotFound, "user not found")) &&
      (driver.Fault? ==> w.Sent(StatusInternalServerError, "failed to get user data")) &&
      (driver.NoFault? && uid in db.users && marshal(db.users[uid]).Malformed? ==>
        w.Sent(StatusInternalServerError, "unable to serialize user data")) &&
      (driver.NoFault? && uid in db.users && marshal(db.users[uid]).Decoded? ==>
        w.Sent(StatusOK, marshal(db.users[uid]).value) && w.contentType == Some("application/json"))
    ensures w.status != StatusOK ==> w.contentType == None
  {
    if id.Absent? {
      SendError(w, "user ID is not provided", StatusBadRequest);
      return;
    }
    if id.atoi.Malformed? {
      SendError(w, "wrong user ID", StatusBadRequest);
      return;
    }
    var userId := id.atoi.value;
    var user, err := db.GetUserById(userId, driver);
    if user.None? {
      SendError(w, "user not found", StatusNotFound);
      return;
    }
    if err.Some? {
      SendError(w, "failed to get user data", StatusInternalServerError);
      return;
    }
    var data := marshal(user.value);
    if data.Malformed? {
      SendError(w, "unable to serialize user data", StatusInternalServerError);
      return;
    }
    w.SetContentType("application/json");
    w.Write(data.value);
  }

  /**
   * `updateUser`, for PUT /users/{id}. The body is read and decoded before the
   * id is parsed. `decoded` lists the decoded field map's entries in the order
   * the storage layer will visit them.
   */
  method UpdateUser(db: Store, w: Response, id: PathId, read: ReadOutcome,
                    decoded: Decoded<seq<(string, Value)>>, getDriver: Fault, updateDriver: Fault)
    requires db.Valid() && w.Unwritten()
    modifies db`calls, db`users, w
    ensures db.Valid()
    ensures id.Absent? ==>
      w.Sent(StatusBadRequest, "user ID is not provided") && unchanged(db)
    ensures id.Present? && read.ReadFailed? ==>
      w.Sent(StatusInternalServerError, "failed to read user data") && unchanged(db)
    ensures id.Present? && read.ReadOk? && decoded.Malformed? ==>
      w.Sent(StatusInternalServerError, "failed to parse user data") && unchanged(db)
    ensures id == Present(Malformed) && read.ReadOk? && decoded.Decoded? ==>
      w.Sent(StatusBadRequest, "wrong user ID") && unchanged(db)
    ensures id.Present? && id.atoi.Decoded? && read.ReadOk? && decoded.Decoded? ==>
      var uid, entries := id.atoi.value, decoded.value;
      (getDriver.NoFault? && uid !in old(db.users) ==>
        w.Sent(StatusNotFound, "user not found") &&
        db.users == old(db.users) && db.calls == old(db.calls) + [GetCall(uid)]) &&
      (getDriver.Fault? ==>
        w.Sent(StatusInternalServerError, "failed to get user data") &&
        db.users == old(db.users) && db.calls == old(db.calls) + [GetCall(uid)]) &&
      (getDriver.NoFault? && uid in old(db.users) ==>
        db.calls == old(db.calls) + [GetCall(uid), UpdateCall(UpdateStatement(entries), BoundValues(uid, entries))] &&
        (updateDriver.NoFault? ==>
          w.Sent(StatusOK, IntToString(uid)) &&
          (PlainColumns(entries) ==> RowUpdated(old(db.users), db.users, uid, entries))) &&
        (updateDriver.Fault? ==>
          w.Sent(StatusInternalServerError, "failed to update user") && db.users == old(db.users)))
    ensures w.status == StatusNotFound ==> db.users == old(db.users)
    ensures db.nextId == old(db.nextId)
    ensures w.contentType == None
  {
    if id.Absent? {
      SendError(w, "user ID is not provided", StatusBadRequest);
      return;
    }
    if read.ReadFailed? {
      SendError(w, "failed to read user data", StatusInternalServerError);
      return;
    }
    if decoded.Malformed? {
      SendError(w, "failed to parse user data", StatusInternalServerError);
      return;
    }
    var newData := decoded.value;
    if id.atoi.Malformed? {
      SendError(w, "wrong user ID", StatusBadRequest);
      return;
    }
    var userId := id.atoi.value;
    var user, err := db.GetUserById(userId, getDriver);
    if user.None? {
      SendError(w, "user not found", StatusNotFound);
      return;
    }
    if err.Some? {
      SendError(w, "failed to get user data", StatusInternalServerError);
      return;
    }
    err := db.UpdateUserById(userId, newData, updateDriver);
    if err.Some? {
      SendError(w, "failed to update user", StatusInternalServerError);
      return;
    }
    w.Write(IntToString(userId));
  }

  /**
   * `deleteUser`, for DELETE /users/{id}. A failed delete writes its message
   * without a status, so the response keeps the default 200.
   */
  method DeleteUser(db: Store, w: Response, id: PathId, getDriver: Fault, deleteDriver: Fault)
    requires db.Valid() && w.Unwritten()
    modifies db`calls, db`users, w
    ensures db.Valid()
    ensures id.Absent? ==>
      w.Sent(StatusBadRequest, "user ID is not provided") && unchanged(db)
    ensures id == Present(Malformed) ==>
      w.Sent(StatusBadRequest, "wrong user ID") && unchanged(db)
    ensures id.Present? && id.atoi.Decoded? ==>
      var uid := id.atoi.value;
      (getDriver.NoFault? && uid !in old(db.users) ==>
        w.Sent(StatusNotFound, "user not found") &&
        db.users == old(db.users) && db.calls == old(db.calls) + [GetCall(uid)]) &&
      (getDriver.Fault? ==>
        w.Sent(StatusInternalServerError, "failed to get user data") &&
        db.users == old(db.users) && db.calls == old(db.calls) + [GetCall(uid)]) &&
      (getDriver.NoFault? && uid in old(db.users) ==>
        db.calls == old(db.calls) + [GetCall(uid), DeleteCall(uid)] &&
        (deleteDriver.NoFault? ==>
          w.Sent(StatusOK, IntToString(uid)) && db.users == old(db.users) - {uid}) &&
        (deleteDriver.Fault? ==>
          w.Sent(StatusOK, "failed to delete user") && db.users == old(db.users)))
    ensures w.status == StatusNotFound ==> db.users == old(db.users)
    ensures w.contentType == None
  {
    if id.Absent? {
      SendError(w, "user ID is not provided", StatusBadRequest);
      return;
    }
    if id.atoi.Malformed? {
      SendError(w, "wrong user ID", StatusBadRequest);
      return;
    }
    var userId := id.atoi.value;
    var user, err := db.GetUserById(userId, getDriver);
    if user.None? {
      SendError(w, "user not found", StatusNotFound);
      return;
    }
    if err.Some? {
      SendError(w, "failed to get user data", StatusInternalServerError);
      return;
    }
    err := db.DeleteUserById(userId, deleteDriver);
    if err.Some? {
      w.Write("failed to delete user");
      return;
    }
    w.Write(IntToString(userId));
  }
}
