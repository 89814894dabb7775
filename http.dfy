/** The JSON responses of the route handlers: a status, a `message` and
    at most one kind of payload. */
module Http {
  import opened UserModel
  import AuthSchema

  const SERVER_ERROR: string := "Terjadi kesalahan server"
  const UNAUTHORIZED: string := "Unauthorized"
  const NOT_FOUND: string := "User not found"

  datatype Payload =
    | NoPayload
    | ValidationIssues(issues: seq<AuthSchema.Issue>)
    | PublicRecord(user: PublicUser)
    | FullRecord(record: User)
    | PublicList(users: map<Id, PublicUser>)

  datatype Response = Response(status: int, message: string, payload: Payload)

  /** A payload that carries a password hash. */
  predicate ExposesPassword(p: Payload) {
    p.FullRecord?
  }
}
