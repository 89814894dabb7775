/** `src/app/api/profile/route.ts`: reading, updating and soft-deleting the
    signed-in user's record. The session's user id, the parsed body and the
    clock are inputs. */
module ProfileRoute {
  import opened Common
  import opened UserModel
  import opened Http

  const RETRIEVED: string := "Profile retrieved successfully"
  const UPDATED: string := "Profile updated successfully"
  const DELETED: string := "Account deleted successfully"

  /** The fields of a `PUT` body the handler reads; `None` is an absent or
      `null` value. */
  datatype ProfileBody = ProfileBody(name: Option<string>, bio: Option<string>,
                                     location: Option<string>, website: Option<string>)

  function Reject(status: int, message: string): Response {
    Response(status, message, NoPayload)
  }

  /** `GET`: the record of the session's user, projected without its password. */
  function GetProfile(users: map<Id, User>, sessionUserId: Option<Id>): (r: Response)
    ensures !Truthy(sessionUserId) ==> r == Reject(401, UNAUTHORIZED)
    ensures Truthy(sessionUserId) && sessionUserId.value !in users ==> r == Reject(404, NOT_FOUND)
    ensures r.status == 200 <==> Truthy(sessionUserId) && sessionUserId.value in users
    ensures r.status == 200 ==> r.payload == PublicRecord(Strip(users[sessionUserId.value]))
    ensures !ExposesPassword(r.payload)
  {
    if !Truthy(sessionUserId) then Reject(401, UNAUTHORIZED)
    else if sessionUserId.value !in users then Reject(404, NOT_FOUND)
    else Response(200, RETRIEVED, PublicRecord(Strip(users[sessionUserId.value])))
  }

  /** The record `db.user.update` writes for a `PUT`: each of the four
      editable fields takes the body's value when it is truthy and keeps the
      stored one otherwise, and `updatedAt` is the clock. */
  function Merged(u: User, body: ProfileBody, now: Time): (m: User)
    ensures m.name == Or(body.name, u.name) && m.bio == Or(body.bio, u.bio)
    ensures m.location == Or(body.location, u.location) && m.website == Or(body.website, u.website)
    ensures m.updatedAt == now
  {
    u.(name := Or(body.name, u.name), bio := Or(body.bio, u.bio),
       location := Or(body.location, u.location), website := Or(body.website, u.website),
       updatedAt := now)
  }

  /** A merge touches the four editable fields and `updatedAt` and nothing else. */
  lemma MergeChangesOnlyEditableFields(u: User, body: ProfileBody, now: Time)
    ensures Merged(u, body, now).(name := u.name, bio := u.bio, location := u.location,
                                  website := u.website, updatedAt := u.updatedAt) == u
  {
  }

  /** An empty string is indistinguishable from an absent field: both keep
      the stored value. */
  lemma EmptyStringKeepsValue(u: User, body: ProfileBody, now: Time)
    requires body.name == Some("") && body.bio == None
    ensures Merged(u, body, now).name == u.name && Merged(u, body, now).bio == u.bio
  {
  }

  /** Sending the same body again leaves the four editable fields as they are. */
  lemma MergeIdempotent(u: User, body: ProfileBody, t1: Time, t2: Time)
    ensures Merged(Merged(u, body, t1), body, t2) == Merged(u, body, t2)
  {
  }

  /** A body with only a new bio changes the bio and the modification time. */
  lemma BioOnlyUpdate(u: User, bio: string, now: Time)
    requires bio != ""
    ensures Merged(u, ProfileBody(None, Some(bio), None, None), now) == u.(bio := bio, updatedAt := now)
  {
  }

  /** What `await request.json()` yields for a `PUT`: a parse failure
      (which throws), the JSON value `null` (whose fields cannot be read),
      or any other value, whose four fields are read as strings or absent. */
  datatype PutBody = Unparseable | NullBody | Parsed(fields: ProfileBody)

  /** `PUT`: the response and the table afterwards. A parse failure answers
      500 before the lookup; a `null` body passes the lookup and answers 500
      when its first field is read. */
  function UpdateProfile(users: map<Id, User>, sessionUserId: Option<Id>, body: PutBody, now: Time)
    : (r: (Response, map<Id, User>))
    ensures !Truthy(sessionUserId) ==> r == (Reject(401, UNAUTHORIZED), users)
    ensures Truthy(sessionUserId) && body.Unparseable? ==> r == (Reject(500, SERVER_ERROR), users)
    ensures Truthy(sessionUserId) && !body.Unparseable? && sessionUserId.value !in users ==> r == (Reject(404, NOT_FOUND), users)
    ensures Truthy(sessionUserId) && body.NullBody? && sessionUserId.value in users ==> r == (Reject(500, SERVER_ERROR), users)
    ensures r.0.status != 200 ==> r.1 == users
    ensures r.0.status == 200 <==> Truthy(sessionUserId) && body.Parsed? && sessionUserId.value in users
    ensures r.0.status == 200 ==>
      && r.1 == users[sessionUserId.value := Merged(users[sessionUserId.value], body.fields, now)]
      && r.0.payload == PublicRecord(Strip(r.1[sessionUserId.value]))
    ensures !ExposesPassword(r.0.payload)
    ensures TableInvariant(users) ==> TableInvariant(r.1)
  {
    if !Truthy(sessionUserId) then (Reject(401, UNAUTHORIZED), users)
    else if body.Unparseable? then (Reject(500, SERVER_ERROR), users)
    else
      var id := sessionUserId.value;
      if id !in users then (Reject(404, NOT_FOUND), users)
      else if body.NullBody? then (Reject(500, SERVER_ERROR), users)
      else
        var updated := Merged(users[id], body.fields, now);
        (Response(200, UPDATED, PublicRecord(Strip(updated))), users[id := updated])
  }

  /** A `null` body for an unknown id is answered 404: the lookup comes
      before any field of the body is read. */
  lemma NullBodyUnknownIdNotFound(users: map<Id, User>, id: Id, now: Time)
    requires id != "" && id !in users
    ensures UpdateProfile(users, Some(id), NullBody, now).0.status == 404
  {
  }

  /** The response of `DELETE` as the source builds it: the updated record
      itself, password hash included. */
  function DeleteResponseAsWritten(updated: User): (r: Response)
    ensures r.status == 200 && r.message == DELETED
    ensures r.payload == FullRecord(updated)
  {
    Response(200, DELETED, FullRecord(updated))
  }

  /** Every successful `DELETE`, as written, sends the stored hash to the client. */
  lemma DeleteAsWrittenLeaksPassword(users: map<Id, User>, id: Id, now: Time)
    requires id != "" && id in users
    ensures ExposesPassword(DeleteResponseAsWritten(users[id].(isActive := false, updatedAt := now)).payload)
    ensures DeleteResponseAsWritten(users[id].(isActive := false, updatedAt := now)).payload.record.password
      == users[id].password
  {
  }

  /** The `DELETE` response with the password taken out, as the other
      handlers do. */
  function DeleteResponse(updated: User): (r: Response)
    ensures r.status == 200 && r.message == DELETED
    ensures r.payload == PublicRecord(Strip(updated))
    ensures !ExposesPassword(r.payload)
  {
    Response(200, DELETED, PublicRecord(Strip(updated)))
  }

  /** `DELETE`: a soft delete, with the password-free response. An unknown
      id makes `update` throw, and the handler answers 500. */
  function DeleteProfile(users: map<Id, User>, sessionUserId: Option<Id>, now: Time): (r: (Response, map<Id, User>))
    ensures !Truthy(sessionUserId) ==> r == (Reject(401, UNAUTHORIZED), users)
    ensures Truthy(sessionUserId) && sessionUserId.value !in users ==> r == (Reject(500, SERVER_ERROR), users)
    ensures r.0.status != 200 ==> r.1 == users
    ensures r.1.Keys == users.Keys
    ensures Truthy(sessionUserId) && sessionUserId.value in users ==>
      r.0 == DeleteResponse(users[sessionUserId.value].(isActive := false, updatedAt := now))
    ensures r.0.status == 200 ==>
      && Truthy(sessionUserId) && sessionUserId.value in users
      && r.1 == users[sessionUserId.value := users[sessionUserId.value].(isActive := false, updatedAt := now)]
    ensures !ExposesPassword(r.0.payload)
    ensures TableInvariant(users) ==> TableInvariant(r.1)
  {
    if !Truthy(sessionUserId) then (Reject(401, UNAUTHORIZED), users)
    else
      var id := sessionUserId.value;
      if id !in users then (Reject(500, SERVER_ERROR), users)
      else
        var updated := users[id].(isActive := false, updatedAt := now);
        (DeleteResponse(updated), users[id := updated])
  }

  /** After a soft delete the record is still there, inactive, and every
      field but `isActive` and `updatedAt` is as before. */
  lemma SoftDeleteKeepsRecord(users: map<Id, User>, id: Id, now: Time)
    requires id != "" && id in users
    ensures var after := DeleteProfile(users, Some(id), now).1;
      && id in after && !after[id].isActive && after[id].updatedAt == now
      && after[id].(isActive := users[id].isActive, updatedAt := users[id].updatedAt) == users[id]
      && GetProfile(after, Some(id)).status == 200
  {
  }

  /** The `PUT` handler over the table. */
  method Put(table: UserTable, sessionUserId: Option<Id>, body: PutBody, now: Time) returns (resp: Response)
    requires table.Valid()
    modifies table
    ensures table.Valid()
    ensures (resp, table.users) == UpdateProfile(old(table.users), sessionUserId, body, now)
  {
    if !Truthy(sessionUserId) {
      return Reject(401, UNAUTHORIZED);
    }
    if body.Unparseable? {
      return Reject(500, SERVER_ERROR);
    }
    var userId := sessionUserId.value;
    if userId !in table.users {
      return Reject(404, NOT_FOUND);
    }
    if body.NullBody? {
      return Reject(500, SERVER_ERROR);
    }
    var existingUser := table.users[userId];
    var updatedUser := Merged(existingUser, body.fields, now);
    OwnKeysFree(table.users, userId);
    var ok := table.Update(updatedUser);
    assert ok;
    resp := Response(200, UPDATED, PublicRecord(Strip(updatedUser)));
  }

  /** The `DELETE` handler over the table. */
  method Delete(table: UserTable, sessionUserId: Option<Id>, now: Time) returns (resp: Response)
    requires table.Valid()
    modifies table
    ensures table.Valid()
    ensures (resp, table.users) == DeleteProfile(old(table.users), sessionUserId, now)
  {
    if !Truthy(sessionUserId) {
      return Reject(401, UNAUTHORIZED);
    }
    var userId := sessionUserId.value;
    if userId !in table.users {
      return Reject(500, SERVER_ERROR);
    }
    var deletedUser := table.users[userId].(isActive := false, updatedAt := now);
    OwnKeysFree(table.users, userId);
    var ok := table.Update(deletedUser);
    assert ok;
    resp := DeleteResponse(deletedUser);
  }
}
